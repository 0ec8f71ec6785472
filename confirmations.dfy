/**
 * The window-confirmation table of QuarryPlayer.py (`Window.confirmations`):
 * a list of rows indexed by window id, each a list of outcomes indexed by
 * action number, where `None` means "no outcome received yet". The table only
 * grows; an entry is written by a confirmation packet and consumed (reset to
 * `None`) by the thread waiting for it.
 */
module Confirmations {
  import opened Wrappers

  type Table = seq<seq<Option<bool>>>

  /** The outcome stored for (window, action); entries beyond the table read as `None`. */
  function Entry(c: Table, window: nat, action: nat): Option<bool> {
    if window < |c| && action < |c[window]| then c[window][action] else None
  }

  /** The row a window id selects, or the empty row the growth loop would append for it. */
  function RowOf(c: Table, window: nat): seq<Option<bool>> {
    if window < |c| then c[window] else []
  }

  /**
   * The table after `_fix_confirmations_length(window, action)`: empty rows are
   * appended until row `window` exists, then `None` entries are appended to that
   * row until entry `action` exists. Nothing already present changes.
   */
  function Grown(c: Table, window: nat, action: nat): (r: Table)
    ensures |r| == if window < |c| then |c| else window + 1
    ensures |r[window]| == if action < |RowOf(c, window)| then |RowOf(c, window)| else action + 1
    ensures r[window][..|RowOf(c, window)|] == RowOf(c, window)
    ensures forall j :: |RowOf(c, window)| <= j < |r[window]| ==> r[window][j] == None
    ensures forall i :: 0 <= i < |r| && i != window ==> r[i] == RowOf(c, i)
    ensures forall i: nat, j: nat :: Entry(r, i, j) == Entry(c, i, j)
  {
    var rows := if window < |c| then c else c + seq(window + 1 - |c|, _ => []);
    var row := rows[window];
    rows[window := if action < |row| then row else row + seq(action + 1 - |row|, _ => None)]
  }

  /** `on_window_confirmation`: grow the table, then store the outcome at (window, action). */
  function Recorded(c: Table, window: nat, action: nat, accepted: bool): (r: Table)
    ensures Entry(r, window, action) == Some(accepted)
    ensures forall i: nat, j: nat :: (i, j) != (window, action) ==> Entry(r, i, j) == Entry(c, i, j)
  {
    var g := Grown(c, window, action);
    g[window := g[window][action := Some(accepted)]]
  }

  /**
   * The non-blocking step of `wait_action_id`: grow the table, and if an outcome
   * is present at (window, action), return it and reset the entry to `None`.
   * An absent outcome is where the source keeps spinning.
   */
  function Taken(c: Table, window: nat, action: nat): (r: (Option<bool>, Table))
    ensures r.0 == Entry(c, window, action)
    ensures Entry(r.1, window, action) == None
    ensures forall i: nat, j: nat :: (i, j) != (window, action) ==> Entry(r.1, i, j) == Entry(c, i, j)
  {
    var g := Grown(c, window, action);
    if g[window][action].Some? then (g[window][action], g[window := g[window][action := None]])
    else (None, g)
  }

  /** Growing a table that already has the entry changes nothing. */
  lemma GrownWhenLargeEnough(c: Table, window: nat, action: nat)
    requires window < |c| && action < |c[window]|
    ensures Grown(c, window, action) == c
  {
  }

  /**
   * Outcomes do not stack: a second outcome for the same key, written before the
   * first is consumed, replaces it, and only the latest is ever taken.
   */
  lemma LatestOutcomeWins(c: Table, window: nat, action: nat, first: bool, second: bool)
    ensures Recorded(Recorded(c, window, action, first), window, action, second)
         == Recorded(c, window, action, second)
    ensures Taken(Recorded(Recorded(c, window, action, first), window, action, second), window, action).0
         == Some(second)
  {
    var once := Recorded(c, window, action, first);
    var g := Grown(c, window, action);
    GrownWhenLargeEnough(once, window, action);
    assert once[window][action := Some(second)] == g[window][action := Some(second)];
  }

  /** A recorded outcome is taken exactly once; afterwards the key reads as pending again. */
  lemma TakeConsumes(c: Table, window: nat, action: nat, accepted: bool)
    ensures Taken(Recorded(c, window, action, accepted), window, action).0 == Some(accepted)
    ensures Taken(Taken(Recorded(c, window, action, accepted), window, action).1, window, action).0 == None
  {
  }
}
