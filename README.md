# Music-Extended core, modelled in Dafny

This project models the data layer of the Music-Extended Android app, together with the screens that drive it. The app is a Spotify companion written in Kotlin. It covers:

- **The token lifecycle.** `TokenManager` keeps the access token, refresh token, lifetime, token type and absolute expiry in shared preferences. `AuthRepository` caches the access token and its expiry in memory. It refreshes the token with the refresh-token grant, exchanges an authorization code, saves tokens and clears them.
- **The HTTP hooks.** `AuthInterceptor` adds `Authorization: Bearer <token>` to outgoing requests. `AuthAuthenticator` answers a 401 by refreshing the token and retrying with the new one.
- **The local database.**
  - Five Room entities with their converters to and from the Spotify API objects.
  - Five DAOs over keyed tables with `REPLACE` inserts and `ORDER BY` queries.
- **The five repositories.** Each emits the cached table, then refreshes it from the network.
- **Four view models.**
  - The AI playlist generator: prompt, answer classification, marker parsing and per-song search.
  - The home screen: profile and sign-in status.
  - The playlists screen and the saved-tracks screen.

The form of the model follows the source:

- Objects whose fields change are classes, with `modifies` and `reads` frames: the token manager, the repository, the DAOs, the repositories and the view models. Each of their methods is proved against a pure function of the old state.
- Converters and query semantics are functions, with lemmas about them.
- A Kotlin `Flow` run is modelled as the sequence of lists it emits.
- A network call is a function-typed parameter, so the query that is sent is visible in the contracts.
- Clock readings from `System.currentTimeMillis()` are `int` parameters. A batch conversion gives all its rows one reading (see "## Left out").

Number semantics and ordering:

- Kotlin `Int` and `Long` values are unbounded `int`. The exception is `toLongOrNull`, which rejects values outside the Long range, as the JVM does.
- SQLite's `ORDER BY popularity DESC, name ASC` puts NULL popularities last and compares names by code point.
- Rows that tie on the sort key come back in an order the model leaves open.

On these points the model follows the code as written:

- A refresh clears the tokens only when the endpoint answers HTTP 400 with `invalid_grant` in the error body. Another non-2xx status with `invalid_grant` leaves the tokens alone.
- `TrackEntity.toTrack` builds the track's `external_urls` from the stored *preview* url.
- `AuthRepository.saveTokens` stores its own expiry first. `TokenManager.saveTokens` then overwrites it with an expiry computed from its own, later clock reading. So the persisted expiry comes from the second reading.

## Model

| member | source | states |
|---|---|---|
| Text.ContainsIffOccurs | app/src/main/java/com/musicextended/network/AuthInterceptor.kt:15 | `contains` holds exactly when the needle occurs at some position |
| Text.TrimStart | app/src/main/java/com/musicextended/viewmodel/AIGenerationViewModel.kt:202 | only leading JVM whitespace is removed, and the result starts with a non-blank character |
| Text.TrimEnd | app/src/main/java/com/musicextended/viewmodel/AIGenerationViewModel.kt:210 | only trailing JVM whitespace is removed, and the result ends with a non-blank character |
| Text.TrimEmptyIffBlank | app/src/main/java/com/musicextended/viewmodel/AIGenerationViewModel.kt:172 | `trim()` is empty exactly when `isBlank()` holds |
| Text.JoinLength | app/src/main/java/com/musicextended/data/local/entities/TopTrackEntity.kt:29 | a join is as long as its parts plus one separator per gap |
| Text.Split | app/src/main/java/com/musicextended/data/local/entities/TrackEntity.kt:74 | `split` always yields at least one field |
| Text.SplitWithoutDelimiter | app/src/main/java/com/musicextended/data/local/entities/TrackEntity.kt:74 | a string without the delimiter splits into itself alone |
| Text.SplitFirstField | app/src/main/java/com/musicextended/data/local/entities/TrackEntity.kt:74 | a delimiter-free prefix followed by the delimiter is the first field |
| Text.SplitJoin | app/src/main/java/com/musicextended/data/local/entities/TrackEntity.kt:39-40 | splitting undoes `joinToString(",")` when no part holds a comma |
| Text.ToLongOrNull | app/src/main/java/com/musicextended/utils/AuthRepository.kt:161 | a parsed value lies in the Long range |
| Text.ToLongOrNullNeedsDigits | app/src/main/java/com/musicextended/utils/AuthRepository.kt:161 | a parse succeeds only on an optional sign followed by at least one ASCII digit |
| Text.ToLongOrNullRoundTrip | app/src/main/java/com/musicextended/utils/AuthRepository.kt:161 | every Long printed in decimal parses back to itself |
| Tables.KeyLeTotal | app/src/main/java/com/musicextended/data/local/daos/TopTrackDao.kt:16 | any two rows are ordered one way or the other by `popularity DESC, name ASC` |
| Tables.KeyLeTransitive | app/src/main/java/com/musicextended/data/local/daos/TopTrackDao.kt:16 | that order is transitive |
| Tables.KeyLeByNameAlone | app/src/main/java/com/musicextended/data/local/daos/TrackDao.kt:26 | with no popularity on either side, the order is the name order |
| Tables.ListsEmpty | app/src/main/java/com/musicextended/data/repository/TrackRepository.kt:34-35 | a listing is empty exactly when the table is empty |
| Tables.OrderedRows | app/src/main/java/com/musicextended/data/local/daos/TrackDao.kt:26-27 | `SELECT * ... ORDER BY` returns every row exactly once, sorted |
| Tables.RowsInAnyOrder | app/src/main/java/com/musicextended/data/local/daos/UserDao.kt:29-30 | `SELECT *` returns every row exactly once |
| Tables.UpsertAll | app/src/main/java/com/musicextended/data/local/daos/TrackDao.kt:35-36 | a REPLACE batch keeps every row stored under its own key |
| Tables.UpsertAllEffect | app/src/main/java/com/musicextended/data/local/daos/TrackDao.kt:35-36 | a REPLACE batch adds exactly the batch's keys, leaves other rows alone, and keeps the last batch row for each key |
| Tables.UpsertAllAt | app/src/main/java/com/musicextended/data/local/daos/TrackDao.kt:35-36 | each batch key ends up holding the last batch row with that key |
| Tables.ReplaceAll | app/src/main/java/com/musicextended/data/local/daos/TrackDao.kt:17-18 | inserting row by row gives the REPLACE batch result |
| Models.FirstImageUrl | app/src/main/java/com/musicextended/data/local/entities/TrackEntity.kt:38 | a missing or empty image list gives no url |
| TrackEntities.ArtistIds | app/src/main/java/com/musicextended/data/local/entities/TrackEntity.kt:39 | one id per artist, in order |
| TrackEntities.ArtistNames | app/src/main/java/com/musicextended/data/local/entities/TrackEntity.kt:40 | one name per artist, in order |
| TrackEntities.FromTrack | app/src/main/java/com/musicextended/data/local/entities/TrackEntity.kt:32-51 | `fromTrack` keeps id and name, stores the artist ids and names each joined with `","` and the first album image url, and stamps the clock reading |
| TrackEntities.FromTracks | app/src/main/java/com/musicextended/data/repository/TrackRepository.kt:47-49 | one row per network track, in order |
| TrackEntities.ZipArtists | app/src/main/java/com/musicextended/data/local/entities/TrackEntity.kt:74-83 | `zip` pairs ids and names up to the shorter list |
| TrackEntities.StoredArtists | app/src/main/java/com/musicextended/data/local/entities/TrackEntity.kt:73-86 | no artists are rebuilt when either column is null or empty |
| TrackEntities.ToTrack | app/src/main/java/com/musicextended/data/local/entities/TrackEntity.kt:54-110 | `toTrack` with its defaults and the fields it does not store |
| TrackEntities.JoinEmpty | app/src/main/java/com/musicextended/data/local/entities/TrackEntity.kt:73 | a joined column is empty only for no parts or one empty part |
| TrackEntities.ArtistsRoundTrip | app/src/main/java/com/musicextended/data/local/entities/TrackEntity.kt:32-86 | `fromTrack` then `toTrack` gives back the artists' ids and names, in order, when no id or name holds a comma |
| TrackEntities.CommaInNameShiftsArtists | app/src/main/java/com/musicextended/data/local/entities/TrackEntity.kt:39-83 | an artist name containing a comma splits in two and shifts names against ids |
| TrackEntities.SplitTwoWithInnerDelimiter | app/src/main/java/com/musicextended/data/local/entities/TrackEntity.kt:74 | a first part holding one delimiter splits into three fields |
| TrackEntities.SplitCommaName | app/src/main/java/com/musicextended/data/local/entities/TrackEntity.kt:74 | the concrete split of `"Tyler, The Creator,Kali"` |
| TrackEntities.StoredFieldsRoundTrip | app/src/main/java/com/musicextended/data/local/entities/TrackEntity.kt:32-110 | the stored track fields survive `fromTrack` then `toTrack`, and the popularity is lost |
| TopTrackEntities.FromTrack | app/src/main/java/com/musicextended/data/local/entities/TopTrackEntity.kt:25-40 | `fromTrack` copies id, name, duration, explicit, popularity, preview, uri, href, album name and first image url, and stores the artist names joined with `", "` |
| TopTrackEntities.FromTracks | app/src/main/java/com/musicextended/data/repository/TopTrackRepository.kt:46-48 | one row per network track, in order |
| TopTrackEntities.ArtistNamesDifferFromSavedTrack | app/src/main/java/com/musicextended/data/local/entities/TopTrackEntity.kt:29 | for two or more artists the `", "` join is longer than, and differs from, the saved-track `","` join |
| TopTrackEntities.ArtistNamesAgreeForOneArtist | app/src/main/java/com/musicextended/data/local/entities/TopTrackEntity.kt:29 | with at most one artist the two joins coincide |
| TopArtistEntities.FromArtist | app/src/main/java/com/musicextended/data/local/entities/TopArtistEntity.kt:20-31 | `fromArtist` copies id, name, uri and href, and leaves image, genres and popularity null |
| TopArtistEntities.FromArtists | app/src/main/java/com/musicextended/data/repository/TopArtistRepository.kt:50 | one row per network artist, in order |
| PlaylistEntities.FromSimplifiedPlaylist | app/src/main/java/com/musicextended/data/local/entities/PlaylistEntity.kt:27-41 | `fromSimplifiedPlaylist`, with a null `public` read as false |
| PlaylistEntities.FromSimplifiedPlaylists | app/src/main/java/com/musicextended/data/repository/PlaylistRepository.kt:37-39 | one row per network playlist, in order |
| PlaylistEntities.ToSimplifiedPlaylist | app/src/main/java/com/musicextended/data/local/entities/PlaylistEntity.kt:45-74 | `toSimplifiedPlaylist` with its owner, image list, tracks info and constant fields |
| PlaylistEntities.RowRoundTrip | app/src/main/java/com/musicextended/data/local/entities/PlaylistEntity.kt:27-74 | a row survives the trip through a playlist object, apart from its timestamp |
| PlaylistEntities.PlaylistRoundTrip | app/src/main/java/com/musicextended/data/local/entities/PlaylistEntity.kt:27-74 | a playlist keeps every stored field through a row |
| UserEntities.FromSpotifyUserProfile | app/src/main/java/com/musicextended/data/local/entities/UserEntity.kt:26-40 | `fromSpotifyUserProfile`, the profile url being the `"spotify"` entry of the url map |
| UserEntities.ToSpotifyUserProfile | app/src/main/java/com/musicextended/data/local/entities/UserEntity.kt:43-65 | `toSpotifyUserProfile` with its constant type, product and explicit-content fields |
| UserEntities.RowRoundTrip | app/src/main/java/com/musicextended/data/local/entities/UserEntity.kt:26-65 | a row survives the trip through a profile, apart from its timestamp |
| UserEntities.ProfileRoundTrip | app/src/main/java/com/musicextended/data/local/entities/UserEntity.kt:26-65 | a profile keeps every stored field through a row |
| PlaylistDaos.PlaylistDao.constructor | app/src/main/java/com/musicextended/data/local/daos/PlaylistDao.kt:12-40 | a new table is empty and keyed |
| PlaylistDaos.PlaylistDao.InsertPlaylist | app/src/main/java/com/musicextended/data/local/daos/PlaylistDao.kt:14-15 | REPLACE on the id |
| PlaylistDaos.PlaylistDao.InsertAllPlaylists | app/src/main/java/com/musicextended/data/local/daos/PlaylistDao.kt:17-18 | REPLACE batch in list order |
| PlaylistDaos.PlaylistDao.InsertPlaylists | app/src/main/java/com/musicextended/data/local/daos/PlaylistDao.kt:38-39 | REPLACE batch in list order |
| PlaylistDaos.PlaylistDao.UpdatePlaylist | app/src/main/java/com/musicextended/data/local/daos/PlaylistDao.kt:20-21 | rewrites an existing row, and otherwise changes nothing |
| PlaylistDaos.PlaylistDao.GetPlaylistById | app/src/main/java/com/musicextended/data/local/daos/PlaylistDao.kt:23-24 | the row with that id, or null exactly when there is none |
| PlaylistDaos.PlaylistDao.GetAllPlaylists | app/src/main/java/com/musicextended/data/local/daos/PlaylistDao.kt:26-27 | every row once, sorted by name |
| PlaylistDaos.PlaylistDao.DeletePlaylist | app/src/main/java/com/musicextended/data/local/daos/PlaylistDao.kt:29-30 | removes only that id |
| PlaylistDaos.PlaylistDao.DeleteAllPlaylists | app/src/main/java/com/musicextended/data/local/daos/PlaylistDao.kt:32-33 | empties the table |
| PlaylistDaos.PlaylistDao.ClearAllPlaylists | app/src/main/java/com/musicextended/data/local/daos/PlaylistDao.kt:35-36 | empties the table |
| TrackDaos.TrackDao.constructor | app/src/main/java/com/musicextended/data/local/daos/TrackDao.kt:12-40 | a new table is empty and keyed |
| TrackDaos.TrackDao.InsertTrack | app/src/main/java/com/musicextended/data/local/daos/TrackDao.kt:14-15 | REPLACE on the id |
| TrackDaos.TrackDao.InsertAllTracks | app/src/main/java/com/musicextended/data/local/daos/TrackDao.kt:17-18 | REPLACE batch in list order |
| TrackDaos.TrackDao.InsertTracks | app/src/main/java/com/musicextended/data/local/daos/TrackDao.kt:35-36 | REPLACE batch in list order |
| TrackDaos.TrackDao.UpdateTrack | app/src/main/java/com/musicextended/data/local/daos/TrackDao.kt:20-21 | rewrites an existing row, and otherwise changes nothing |
| TrackDaos.TrackDao.GetTrackById | app/src/main/java/com/musicextended/data/local/daos/TrackDao.kt:23-24 | the row with that id, or null exactly when there is none |
| TrackDaos.TrackDao.GetAllTracks | app/src/main/java/com/musicextended/data/local/daos/TrackDao.kt:26-27 | every row once, sorted by name |
| TrackDaos.TrackDao.DeleteTrack | app/src/main/java/com/musicextended/data/local/daos/TrackDao.kt:29-30 | removes only that id |
| TrackDaos.TrackDao.DeleteAllTracks | app/src/main/java/com/musicextended/data/local/daos/TrackDao.kt:32-33 | empties the table |
| TrackDaos.TrackDao.ClearAllTracks | app/src/main/java/com/musicextended/data/local/daos/TrackDao.kt:38-39 | empties the table |
| UserDaos.UserDao.constructor | app/src/main/java/com/musicextended/data/local/daos/UserDao.kt:12-34 | a new table is empty and keyed |
| UserDaos.UserDao.InsertUser | app/src/main/java/com/musicextended/data/local/daos/UserDao.kt:14-15 | REPLACE on the id |
| UserDaos.UserDao.UpdateUser | app/src/main/java/com/musicextended/data/local/daos/UserDao.kt:17-18 | rewrites an existing row, and otherwise changes nothing |
| UserDaos.UserDao.GetUserById | app/src/main/java/com/musicextended/data/local/daos/UserDao.kt:20-21 | the row with that id, or null exactly when there is none |
| UserDaos.UserDao.GetAllUsers | app/src/main/java/com/musicextended/data/local/daos/UserDao.kt:29-30 | every row once, in no fixed order |
| UserDaos.UserDao.DeleteUser | app/src/main/java/com/musicextended/data/local/daos/UserDao.kt:23-24 | removes only that id |
| UserDaos.UserDao.DeleteAllUsers | app/src/main/java/com/musicextended/data/local/daos/UserDao.kt:26-27 | empties the table |
| UserDaos.UserDao.ClearAllUsers | app/src/main/java/com/musicextended/data/local/daos/UserDao.kt:32-33 | empties the table |
| TopArtistDaos.ConvertedArtistsSortByName | app/src/main/java/com/musicextended/data/local/daos/TopArtistDao.kt:16 | rows without popularity (all that `fromArtist` makes) sort by name alone |
| TopArtistDaos.TopArtistDao.constructor | app/src/main/java/com/musicextended/data/local/daos/TopArtistDao.kt:11-21 | a new table is empty and keyed |
| TopArtistDaos.TopArtistDao.InsertTopArtists | app/src/main/java/com/musicextended/data/local/daos/TopArtistDao.kt:13-14 | REPLACE batch in list order |
| TopArtistDaos.TopArtistDao.GetAllTopArtists | app/src/main/java/com/musicextended/data/local/daos/TopArtistDao.kt:16-17 | every row once, most popular first, then by name |
| TopArtistDaos.TopArtistDao.ClearAllTopArtists | app/src/main/java/com/musicextended/data/local/daos/TopArtistDao.kt:19-20 | empties the table |
| TopTrackDaos.UnratedTracksLast | app/src/main/java/com/musicextended/data/local/daos/TopTrackDao.kt:16 | in a sorted listing every track with a popularity precedes every track without one |
| TopTrackDaos.TopTrackDao.constructor | app/src/main/java/com/musicextended/data/local/daos/TopTrackDao.kt:11-21 | a new table is empty and keyed |
| TopTrackDaos.TopTrackDao.InsertTopTracks | app/src/main/java/com/musicextended/data/local/daos/TopTrackDao.kt:13-14 | REPLACE batch in list order |
| TopTrackDaos.TopTrackDao.GetAllTopTracks | app/src/main/java/com/musicextended/data/local/daos/TopTrackDao.kt:16-17 | every row once, most popular first, then by name |
| TopTrackDaos.TopTrackDao.ClearAllTopTracks | app/src/main/java/com/musicextended/data/local/daos/TopTrackDao.kt:19-20 | empties the table |
| TrackRepositories.TrackRepository.constructor | app/src/main/java/com/musicextended/data/repository/TrackRepository.kt:16-20 | holds the given DAO |
| TrackRepositories.TrackRepository.GetCurrentUserSavedTracks | app/src/main/java/com/musicextended/data/repository/TrackRepository.kt:29-71 | a cached table is emitted first, sorted. A fetch with tracks replaces the table and emits it re-read. Otherwise the table is unchanged, and `[]` is emitted only when there was no cache |
| TrackRepositories.TrackRepository.ClearSavedTrackData | app/src/main/java/com/musicextended/data/repository/TrackRepository.kt:76-79 | empties the table |
| TrackRepositories.RefreshedTable | app/src/main/java/com/musicextended/data/repository/TrackRepository.kt:51-52 | after a refresh each fetched id holds the row of its last occurrence in the reply |
| PlaylistRepositories.PlaylistRepository.constructor | app/src/main/java/com/musicextended/data/repository/PlaylistRepository.kt:12-16 | holds the given DAO |
| PlaylistRepositories.PlaylistRepository.GetCurrentUserPlaylists | app/src/main/java/com/musicextended/data/repository/PlaylistRepository.kt:24-61 | as for saved tracks, with the page `limit = 20, offset = 0` |
| TopTrackRepositories.TopTrackRepository.constructor | app/src/main/java/com/musicextended/data/repository/TopTrackRepository.kt:16-20 | holds the given DAO |
| TopTrackRepositories.TopTrackRepository.GetUserTopTracks | app/src/main/java/com/musicextended/data/repository/TopTrackRepository.kt:23-64 | a cached table is emitted first, sorted. A fetch with items replaces the table and emits the converted reply in network order. Otherwise the table is unchanged, and `[]` is emitted only when there was no cache |
| TopTrackRepositories.TopTrackRepository.ClearTopTrackData | app/src/main/java/com/musicextended/data/repository/TopTrackRepository.kt:66-69 | empties the table |
| TopArtistRepositories.TopArtistRepository.constructor | app/src/main/java/com/musicextended/data/repository/TopArtistRepository.kt:16-20 | holds the given DAO |
| TopArtistRepositories.TopArtistRepository.GetUserTopArtists | app/src/main/java/com/musicextended/data/repository/TopArtistRepository.kt:23-67 | as for top tracks |
| TopArtistRepositories.TopArtistRepository.ClearTopArtistData | app/src/main/java/com/musicextended/data/repository/TopArtistRepository.kt:69-72 | empties the table |
| UserRepositories.UserRepository.constructor | app/src/main/java/com/musicextended/data/repository/UserRepository.kt:16-20 | holds the given DAO |
| UserRepositories.UserRepository.GetCurrentUserProfile | app/src/main/java/com/musicextended/data/repository/UserRepository.kt:29-74 | a cached user is emitted first. A fetched profile replaces only its own row and is emitted last. Otherwise the table is unchanged, and null is emitted only when there was no cached user |
| UserRepositories.UserRepository.ClearUserData | app/src/main/java/com/musicextended/data/repository/UserRepository.kt:76-79 | empties the table |
| TokenManagers.SaveTokensPrefs | app/src/main/java/com/musicextended/utils/TokenManager.kt:49-74 | each token field reads back as saved. A null lifetime removes its key. The absolute expiry is stored exactly when there is a token and a lifetime. No other key changes |
| TokenManagers.SaveExpiryPrefs | app/src/main/java/com/musicextended/utils/TokenManager.kt:80-83 | the expiry key reads back as written, and nothing else changes |
| TokenManagers.ExplicitExpiryWins | app/src/main/java/com/musicextended/utils/AuthRepository.kt:103-111 | `saveTokens` followed by `saveAccessTokenExpiryTime` leaves the explicit expiry and the saved token fields |
| TokenManagers.TokenManager.constructor | app/src/main/java/com/musicextended/utils/TokenManager.kt:13-40 | wraps a well-typed preference file |
| TokenManagers.TokenManager.SaveTokens | app/src/main/java/com/musicextended/utils/TokenManager.kt:49-74 | the new preferences are `SaveTokensPrefs` of the old |
| TokenManagers.TokenManager.SaveAccessTokenExpiryTime | app/src/main/java/com/musicextended/utils/TokenManager.kt:80-83 | the new preferences are `SaveExpiryPrefs` of the old |
| TokenManagers.TokenManager.GetAccessToken | app/src/main/java/com/musicextended/utils/TokenManager.kt:92 | null exactly when the access-token key is absent, else its stored string |
| TokenManagers.TokenManager.GetRefreshToken | app/src/main/java/com/musicextended/utils/TokenManager.kt:94 | null exactly when the refresh-token key is absent, else its stored string |
| TokenManagers.TokenManager.GetTokenType | app/src/main/java/com/musicextended/utils/TokenManager.kt:100 | null exactly when the token-type key is absent, else its stored string |
| TokenManagers.TokenManager.GetExpiresIn | app/src/main/java/com/musicextended/utils/TokenManager.kt:96-98 | null exactly when the key is absent |
| TokenManagers.TokenManager.GetAccessTokenExpiryTime | app/src/main/java/com/musicextended/utils/TokenManager.kt:106-108 | 0 when the key is absent |
| TokenManagers.TokenManager.ClearAuthData | app/src/main/java/com/musicextended/utils/TokenManager.kt:120-123 | the file is empty and every getter reads null or 0 |
| AuthRepositories.ExpiresInSeconds | app/src/main/java/com/musicextended/utils/AuthRepository.kt:160-161 | 0 when `expires_in` is missing or not a Long, and always in the Long range |
| AuthRepositories.ExpiresInRoundTrip | app/src/main/java/com/musicextended/utils/AuthRepository.kt:160-161 | a printed lifetime is read back as itself |
| AuthRepositories.ExchangeWithoutLifetimeIsExpired | app/src/main/java/com/musicextended/utils/AuthRepository.kt:158-174 | an exchange without a usable `expires_in` leaves a token that is already expired |
| AuthRepositories.FreshUntilBuffer | app/src/main/java/com/musicextended/utils/AuthRepository.kt:64-71 | a token is fresh exactly until 60 s before its expiry |
| AuthRepositories.AuthRepository.constructor | app/src/main/java/com/musicextended/utils/AuthRepository.kt:36-43 | the cache starts from the stored token and expiry |
| AuthRepositories.AuthRepository.GetAccessToken | app/src/main/java/com/musicextended/utils/AuthRepository.kt:49-52 | the cached token, possibly expired; without one the token counts as expired at every clock reading |
| AuthRepositories.AuthRepository.GetRefreshToken | app/src/main/java/com/musicextended/utils/AuthRepository.kt:54-58 | read from the store: present exactly when the refresh-token key is stored |
| AuthRepositories.AuthRepository.IsAuthenticated | app/src/main/java/com/musicextended/utils/AuthRepository.kt:228-230 | signed in exactly when the store (not the in-memory cache) holds an access token |
| AuthRepositories.AuthRepository.IsAccessTokenExpired | app/src/main/java/com/musicextended/utils/AuthRepository.kt:64-71 | expired exactly when there is no token or it ends within the buffer |
| AuthRepositories.AuthRepository.ClearAllTokens | app/src/main/java/com/musicextended/utils/AuthRepository.kt:218-223 | the store is empty, the cache is null and 0, and the user is signed out |
| AuthRepositories.AuthRepository.RefreshAccessToken | app/src/main/java/com/musicextended/utils/AuthRepository.kt:78-132 | no refresh token clears everything. A successful grant with a body stores the new token, keeps the refresh token and writes the explicit expiry. HTTP 400 naming `invalid_grant` clears everything. Any other reply changes nothing |
| AuthRepositories.AuthRepository.ExchangeToken | app/src/main/java/com/musicextended/utils/AuthRepository.kt:139-195 | no response changes nothing. Otherwise the tokens and the computed expiry are stored and cached, and the reply echoes them |
| AuthRepositories.AuthRepository.SaveTokens | app/src/main/java/com/musicextended/utils/AuthRepository.kt:203-212 | the persisted expiry is the one `TokenManager` computes, and it agrees with the cached one only when the two clock readings agree |
| Http.HeaderValue | app/src/main/java/com/musicextended/network/AuthInterceptor.kt:15 | `header(name)`: null exactly when no header has the name (case-insensitive), else the value of the last such header |
| Http.RemoveAll | app/src/main/java/com/musicextended/network/AuthInterceptor.kt:24 | removes exactly the headers with that name |
| Http.RemoveAllKeepsOthers | app/src/main/java/com/musicextended/network/AuthInterceptor.kt:24 | removing one name leaves every other name's value |
| Http.RemoveAllAbsent | app/src/main/java/com/musicextended/network/AuthInterceptor.kt:23-25 | removing an absent name changes nothing |
| Http.SetHeaderEffect | app/src/main/java/com/musicextended/network/AuthAuthenticator.kt:30-32 | `Builder.header` makes the name read the new value, keeps every other name, and keeps verb, url and body |
| Http.SetHeaderAppendsWhenAbsent | app/src/main/java/com/musicextended/network/AuthInterceptor.kt:23-25 | for an absent name, `header` appends one header |
| AuthInterceptors.Intercept | app/src/main/java/com/musicextended/network/AuthInterceptor.kt:12-32 | the token path, an existing Authorization header or no token leave the request unchanged. Otherwise one Bearer header is appended |
| AuthInterceptors.InterceptedIsAuthorized | app/src/main/java/com/musicextended/network/AuthInterceptor.kt:20-27 | with a token, the outgoing request always carries an Authorization header, and the Bearer token when it had none |
| AuthInterceptors.InterceptIdempotent | app/src/main/java/com/musicextended/network/AuthInterceptor.kt:12-32 | intercepting twice is intercepting once |
| AuthAuthenticators.Reauthorized | app/src/main/java/com/musicextended/network/AuthAuthenticator.kt:30-34 | the retried request reads `Bearer <new token>` and is otherwise the original |
| AuthAuthenticators.AuthAuthenticator.constructor | app/src/main/java/com/musicextended/network/AuthAuthenticator.kt:11-13 | holds the given repository |
| AuthAuthenticators.AuthAuthenticator.Authenticate | app/src/main/java/com/musicextended/network/AuthAuthenticator.kt:17-39 | a 401 from the token endpoint itself clears everything and gives up, with no refresh. Otherwise exactly one refresh runs. A retry comes back exactly when the grant succeeded, carrying the granted access token. A missing or rejected refresh token signs out. Any other failed refresh changes neither the store nor the cache |
| ListScreens.AfterEmissionsShowsLast | app/src/main/java/com/musicextended/viewmodel/PlaylistsViewModel.kt:49-53 | collecting emissions shows the last list, stops loading and keeps the error |
| ListScreens.FlowOutcome | app/src/main/java/com/musicextended/viewmodel/PlaylistsViewModel.kt:36-55 | after a collection the list is the last one emitted and the error is the exception's message or none. The screen is still loading exactly when nothing was emitted or thrown |
| ListScreens.FailureKeepsList | app/src/main/java/com/musicextended/viewmodel/PlaylistsViewModel.kt:44-48 | an exception never changes the list shown |
| PlaylistsViewModels.PlaylistsViewModel.constructor | app/src/main/java/com/musicextended/viewmodel/PlaylistsViewModel.kt:23-30 | empty list, not loading, no error |
| PlaylistsViewModels.PlaylistsViewModel.OnStart | app/src/main/java/com/musicextended/viewmodel/PlaylistsViewModel.kt:39-43 | loading on, error cleared |
| PlaylistsViewModels.PlaylistsViewModel.OnError | app/src/main/java/com/musicextended/viewmodel/PlaylistsViewModel.kt:44-48 | error set to the message, loading off |
| PlaylistsViewModels.PlaylistsViewModel.OnEmission | app/src/main/java/com/musicextended/viewmodel/PlaylistsViewModel.kt:49-53 | list replaced, loading off |
| PlaylistsViewModels.PlaylistsViewModel.Collect | app/src/main/java/com/musicextended/viewmodel/PlaylistsViewModel.kt:37-54 | the state after the whole chain is `AfterFlow` of the old state |
| PlaylistsViewModels.PlaylistsViewModel.FetchPlaylists | app/src/main/java/com/musicextended/viewmodel/PlaylistsViewModel.kt:36-55 | the screen ends not loading and without error, showing the table's sorted listing. A fetched page (`20, 0`) replaces the table with REPLACE inserts of its converted playlists; otherwise the table is unchanged |
| SavedTracksViewModels.SavedTracksViewModel.constructor | app/src/main/java/com/musicextended/viewmodel/SavedTracksViewModel.kt:23-30 | empty list, not loading, no error |
| SavedTracksViewModels.SavedTracksViewModel.OnStart | app/src/main/java/com/musicextended/viewmodel/SavedTracksViewModel.kt:39-43 | loading on, error cleared |
| SavedTracksViewModels.SavedTracksViewModel.OnError | app/src/main/java/com/musicextended/viewmodel/SavedTracksViewModel.kt:44-48 | error set to the message, loading off |
| SavedTracksViewModels.SavedTracksViewModel.OnEmission | app/src/main/java/com/musicextended/viewmodel/SavedTracksViewModel.kt:49-53 | list replaced, loading off |
| SavedTracksViewModels.SavedTracksViewModel.Collect | app/src/main/java/com/musicextended/viewmodel/SavedTracksViewModel.kt:37-54 | the state after the whole chain is `AfterFlow` of the old state |
| SavedTracksViewModels.SavedTracksViewModel.FetchSavedTracks | app/src/main/java/com/musicextended/viewmodel/SavedTracksViewModel.kt:36-55 | the screen ends not loading and without error, showing the table's sorted listing. Fetched tracks (page `50, 0`) replace the table with REPLACE inserts of their conversions; otherwise the table is unchanged |
| HomeViewModels.StatusFor | app/src/main/java/com/musicextended/viewmodel/HomeViewModel.kt:44-50 | the status check never leaves the screen LOADING |
| HomeViewModels.OnProfileState | app/src/main/java/com/musicextended/viewmodel/HomeViewModel.kt:56-76 | the emitted user is shown and loading stops. There is an error exactly for a null user. A non-null user means AUTHENTICATED |
| HomeViewModels.LastProfileDecides | app/src/main/java/com/musicextended/viewmodel/HomeViewModel.kt:56-77 | only the last emission determines the state |
| HomeViewModels.HomeViewModel.constructor | app/src/main/java/com/musicextended/viewmodel/HomeViewModel.kt:26-37 | no profile, not loading, no error, LOADING |
| HomeViewModels.HomeViewModel.CheckAuthStatus | app/src/main/java/com/musicextended/viewmodel/HomeViewModel.kt:43-51 | only the status changes, to what the store implies |
| HomeViewModels.HomeViewModel.OnProfile | app/src/main/java/com/musicextended/viewmodel/HomeViewModel.kt:56-76 | the new state is `OnProfileState` of the old |
| HomeViewModels.HomeViewModel.CollectProfiles | app/src/main/java/com/musicextended/viewmodel/HomeViewModel.kt:56-77 | the new state is `AfterProfiles` of the old |
| HomeViewModels.HomeViewModel.StartProfileCollection | app/src/main/java/com/musicextended/viewmodel/HomeViewModel.kt:54-78 | a fetched profile is shown as AUTHENTICATED. Without one, a cached user is shown, or else the error appears and the status follows the store as the fetch left it. Without a 401 the store is untouched. A 401 on the profile request runs one refresh: a missing or rejected refresh token signs out, a granted one keeps the session signed in, and any other failure leaves the store alone |
| HomeViewModels.HomeViewModel.RefreshUserProfile | app/src/main/java/com/musicextended/viewmodel/HomeViewModel.kt:82-90 | only the loading flag changes, to true |
| HomeViewModels.HomeViewModel.Logout | app/src/main/java/com/musicextended/viewmodel/HomeViewModel.kt:93-103 | tokens and cached users are gone, and the screen shows no profile, no error, UNAUTHENTICATED |
| AIGenerationViewModels.IfEmpty | app/src/main/java/com/musicextended/viewmodel/AIGenerationViewModel.kt:111-112 | `ifEmpty` keeps a non-empty string |
| AIGenerationViewModels.PromptArtistNames | app/src/main/java/com/musicextended/viewmodel/AIGenerationViewModel.kt:88 | the names of the first ten artists, in order |
| AIGenerationViewModels.PromptTrackLines | app/src/main/java/com/musicextended/viewmodel/AIGenerationViewModel.kt:89 | `"<name> by <artistNames>"` for the first ten tracks, with a null artist column printed as `null` |
| AIGenerationViewModels.JoinStartsWithFirst | app/src/main/java/com/musicextended/viewmodel/AIGenerationViewModel.kt:88-89 | a join is at least as long as its first part |
| AIGenerationViewModels.BuildPrompt | app/src/main/java/com/musicextended/viewmodel/AIGenerationViewModel.kt:88-113 | the artist names joined with `", "`, or the fallback text exactly when that join is empty; the joined track lines, or the fallback for no tracks; the request, or the fallback for a blank one |
| AIGenerationViewModels.PromptUsesFirstTen | app/src/main/java/com/musicextended/viewmodel/AIGenerationViewModel.kt:88-89 | artists and tracks past the tenth never change the prompt |
| AIGenerationViewModels.Classify | app/src/main/java/com/musicextended/viewmodel/AIGenerationViewModel.kt:172-181 | parse exactly a non-blank answer not starting with `Error:`. Report exactly an answer with that prefix. Report null or blank as malformed |
| AIGenerationViewModels.FindMarker | app/src/main/java/com/musicextended/viewmodel/AIGenerationViewModel.kt:199-201 | `find()` returns the first position where the marker is followed by a character on the same line, or null when there is none |
| AIGenerationViewModels.LineRest | app/src/main/java/com/musicextended/viewmodel/AIGenerationViewModel.kt:199 | greedy `.+`: everything up to the first line terminator or the end |
| AIGenerationViewModels.MarkerGroup | app/src/main/java/com/musicextended/viewmodel/AIGenerationViewModel.kt:199-202 | a matched group is never empty |
| AIGenerationViewModels.LineRestIs | app/src/main/java/com/musicextended/viewmodel/AIGenerationViewModel.kt:199 | a segment that runs up to a terminator is exactly what `.+` takes |
| AIGenerationViewModels.MarkerLine | app/src/main/java/com/musicextended/viewmodel/AIGenerationViewModel.kt:199-212 | a marker line with no earlier match yields exactly the rest of that line |
| AIGenerationViewModels.NoMarkerKeepsDefault | app/src/main/java/com/musicextended/viewmodel/AIGenerationViewModel.kt:193-212 | without a match the default name or description stays |
| AIGenerationViewModels.SmallestImage | app/src/main/java/com/musicextended/viewmodel/AIGenerationViewModel.kt:237 | `minByOrNull`: the first image of least width, a missing width counting as `Int.MAX_VALUE` |
| AIGenerationViewModels.AlbumImageUrl | app/src/main/java/com/musicextended/viewmodel/AIGenerationViewModel.kt:237 | null for a missing or empty image list |
| AIGenerationViewModels.TrimmedAll | app/src/main/java/com/musicextended/viewmodel/AIGenerationViewModel.kt:220-222 | every group trimmed, one match per match |
| AIGenerationViewModels.Suggestion | app/src/main/java/com/musicextended/viewmodel/AIGenerationViewModel.kt:254-262 | the suggestion carries the match's title, artists and reasoning |
| AIGenerationViewModels.SongQueries | app/src/main/java/com/musicextended/viewmodel/AIGenerationViewModel.kt:229-252 | the exact query is sent first, and the broad one second exactly when the exact one found nothing |
| AIGenerationViewModels.Suggestions | app/src/main/java/com/musicextended/viewmodel/AIGenerationViewModel.kt:219-263 | one suggestion per match, in order |
| AIGenerationViewModels.ParsedPlaylist | app/src/main/java/com/musicextended/viewmodel/AIGenerationViewModel.kt:270-274 | one song per match |
| AIGenerationViewModels.SuggestionSource | app/src/main/java/com/musicextended/viewmodel/AIGenerationViewModel.kt:233-252 | the exact search's track wins, then the broad one's, else no id and no image |
| AIGenerationViewModels.SearchSong | app/src/main/java/com/musicextended/viewmodel/AIGenerationViewModel.kt:226-262 | the loop body builds `Suggestion` and sends `SongQueries` |
| AIGenerationViewModels.SearchSongs | app/src/main/java/com/musicextended/viewmodel/AIGenerationViewModel.kt:219-263 | the loop builds `Suggestions` of the trimmed matches and sends `AllQueries` in order |
| AIGenerationViewModels.ParseAndSearchSongs | app/src/main/java/com/musicextended/viewmodel/AIGenerationViewModel.kt:192-275 | the result is `ParsedPlaylist` of the answer |
| AIGenerationViewModels.AIGenerationViewModel.constructor | app/src/main/java/com/musicextended/viewmodel/AIGenerationViewModel.kt:39-52 | empty lists, no content, not loading, no error |
| AIGenerationViewModels.AIGenerationViewModel.CollectTopArtists | app/src/main/java/com/musicextended/viewmodel/AIGenerationViewModel.kt:56-61 | a fetch (medium term, 50, 0) with artists leaves the field holding the converted artists in network order and the table replaced by them. Otherwise the table is unchanged and the field holds its sorted listing. Nothing else changes |
| AIGenerationViewModels.AIGenerationViewModel.CollectTopTracks | app/src/main/java/com/musicextended/viewmodel/AIGenerationViewModel.kt:62-67 | a fetch (medium term, 50, 0) with tracks leaves the field holding the converted tracks in network order and the table replaced by them. Otherwise the table is unchanged and the field holds its sorted listing. Nothing else changes |
| AIGenerationViewModels.AIGenerationViewModel.GeneratePlaylistIdea | app/src/main/java/com/musicextended/viewmodel/AIGenerationViewModel.kt:70-190 | loading ends off on every path. No taste data sets the error and sends no prompt. Otherwise exactly one prompt `BuildPrompt` is sent, and the answer's class decides between the content, the `Error:` text and the malformed message |

## Left out

- TrackEntities.FromTracks: all rows of one batch carry one clock reading. The source calls `System.currentTimeMillis()` once per row, so rows of one batch can differ in `lastUpdated`.
- TopTrackEntities.FromTracks: the same for the top-track batch.
- TopArtistEntities.FromArtists: the same for the top-artist batch.
- PlaylistEntities.FromSimplifiedPlaylists: the same for the playlist batch.
- TrackRepositories.TrackRepository.GetCurrentUserSavedTracks: the refreshed batch is stored with one shared clock reading.
- PlaylistRepositories.PlaylistRepository.GetCurrentUserPlaylists: the refreshed batch is stored with one shared clock reading.
- TopTrackRepositories.TopTrackRepository.GetUserTopTracks: the refreshed batch is stored with one shared clock reading.
- TopArtistRepositories.TopArtistRepository.GetUserTopArtists: the refreshed batch is stored with one shared clock reading.
- HomeViewModels.HomeViewModel.StartProfileCollection: the profile reply that follows a 401 refresh is a parameter. It is not derived from the refreshed token.
- The authenticator's 401 refresh is modelled only for the home screen's profile request. The list screens and the AI screen take their repositories' replies as parameters and do not run it.
- Concurrency is not modelled: the token-refresh `Mutex`, `runBlocking` in the authenticator, dispatchers and `viewModelScope`. The two coroutines each `init` launches run in sequence. A Flow run is one call that returns what it emits.
- Arithmetic is unbounded. `TimeUnit.SECONDS.toMillis` saturation and `Long` wrap-around in `now + millis` are not modelled. Only `toLongOrNull` keeps the Long range.
- Text.ToLongOrNull: only ASCII digits are accepted. The JVM also accepts other Unicode decimal digits.
- The Gemini HTTP call, its JSON request and its JSON reply are a parameter mapping the prompt to the raw text or null. So the catch blocks around that I/O are not modelled: AIGenerationViewModel.kt:166-169 and 183-185.
- The catch at AIGenerationViewModel.kt:264-267 guards the song parsing and the Spotify searches. Neither can throw in the model: the song pattern's matches are a parameter, and `searchTracks` already returns null on any exception. So that catch is not modelled.
- AIGenerationViewModels.BuildPrompt: the fixed template text and `trimIndent` are not modelled. The prompt is its three interpolated values.
- AIGenerationViewModels.ParseAndSearchSongs: the DOTALL song pattern (line 216) is not modelled. Its matches are a parameter, in match order. The name and description patterns are modelled.
- AppAuth is not modelled: the `AuthorizationService` call and its callback in `exchangeToken` are summed up as the nullable token response.
- `saveLastTokenResponse`, `getLastTokenResponse` and the JSON serialization of the token response are not modelled.
- Encryption of the preference file is not modelled: it is a plain map. Logging is left out throughout.
- Room exceptions are not modelled: DAOs never throw, so the repositories never throw, and `FetchPlaylists` and `FetchSavedTracks` pass no failure to `Collect`. `Collect` models the `catch` branch for any flow.
- The `?: "Unknown Track"` in `TrackEntity.fromTrack` is dead code: the track name is non-null. The `?.` on the non-null artists and album are likewise plain accesses.
- OkHttp's validation of header names and values, and the rest of the `Chain`/`Response` objects, are not modelled. A request is its verb, url, headers and body.
- The Spotify service calls, Retrofit and Gson are parameters giving each reply. A thrown exception is the `Threw` case of `ServiceResult`.
- The `Factory` classes, the Compose screens and activities, `SpotifyApi` and the application object are not part of this model.
