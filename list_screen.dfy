/**
 * The state two list screens keep while collecting a repository flow:
 * the list shown, a loading flag and an error message. `onStart` runs
 * before the first emission, `collect` on each emission and `catch` once
 * if the flow throws, after which nothing more is emitted.
 */
module ListScreens {
  import opened Wrappers

  datatype ListState<T> = ListState(items: seq<T>, isLoading: bool, error: Option<string>)

  /** The field initialisers: an empty list, not loading, no error. */
  function Initial<T>(): ListState<T> {
    ListState([], false, None)
  }

  /** The `onStart` block. */
  function Started<T>(s: ListState<T>): ListState<T> {
    s.(isLoading := true, error := None)
  }

  /** The `collect` block for one emitted list. */
  function Emitted<T>(s: ListState<T>, list: seq<T>): ListState<T> {
    s.(items := list, isLoading := false)
  }

  /** The `catch` block for an exception with the given message. */
  function Failed<T>(s: ListState<T>, message: Option<string>): ListState<T> {
    s.(error := message, isLoading := false)
  }

  /** Every emission collected in turn. */
  function AfterEmissions<T>(s: ListState<T>, emissions: seq<seq<T>>): ListState<T>
    decreases |emissions|
  {
    if emissions == [] then s else AfterEmissions(Emitted(s, emissions[0]), emissions[1..])
  }

  /**
   * A whole collection: `onStart`, the emissions, then `catch` when the
   * flow threw (`failure` holds the exception's message, itself nullable).
   */
  function AfterFlow<T>(s: ListState<T>, emissions: seq<seq<T>>, failure: Option<Option<string>>): ListState<T> {
    var collected := AfterEmissions(Started(s), emissions);
    if failure.Some? then Failed(collected, failure.value) else collected
  }

  /** Collecting emissions keeps the error, shows the last list and stops loading. */
  lemma {:induction false} AfterEmissionsShowsLast<T>(s: ListState<T>, emissions: seq<seq<T>>)
    ensures var r := AfterEmissions(s, emissions);
      && r.error == s.error
      && r.items == (if emissions == [] then s.items else emissions[|emissions| - 1])
      && r.isLoading == (emissions == [] && s.isLoading)
    decreases |emissions|
  {
    if emissions != [] {
      AfterEmissionsShowsLast(Emitted(s, emissions[0]), emissions[1..]);
    }
  }

  /**
   * After a collection the list is the last one emitted (or the old one
   * when nothing was emitted), the error is the exception's message or
   * none, and the screen is still loading exactly when the flow neither
   * emitted nor threw.
   */
  lemma FlowOutcome<T>(s: ListState<T>, emissions: seq<seq<T>>, failure: Option<Option<string>>)
    ensures var r := AfterFlow(s, emissions, failure);
      && r.items == (if emissions == [] then s.items else emissions[|emissions| - 1])
      && r.error == (if failure.Some? then failure.value else None)
      && (r.isLoading <==> emissions == [] && failure.None?)
  {
    AfterEmissionsShowsLast(Started(s), emissions);
  }

  /** An exception never changes the list the screen shows. */
  lemma FailureKeepsList<T>(s: ListState<T>, emissions: seq<seq<T>>, message: Option<string>)
    ensures AfterFlow(s, emissions, Some(message)).items == AfterFlow(s, emissions, None).items
  {
  }
}
