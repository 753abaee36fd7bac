/** The application shell: which screen shows, the session being scored, the selection the
    statistics screen analyses and where its back button leads, the error banner, and the guard
    that sends an inconsistent state back to the list. The server calls are not part of this
    model: each handler receives the outcome of its call as a parameter. */
module App {
  import opened Wrappers
  import opened SessionModel
  import Text

  const ListView: string := "list"
  const NewView: string := "new"
  const ScoreView: string := "score"
  const StatisticsView: string := "statistics"

  predicate KnownView(view: string)
  {
    view == ListView || view == NewView || view == ScoreView || view == StatisticsView
  }

  /** The outcome of a server call: its value, or the message of the error it threw. */
  datatype Outcome<T> = Ok(value: T) | Failed(message: string)

  /* ---------------- the guard ---------------- */

  /** The view the guard effect leaves: an unknown view, a score view with no session and a
      statistics view with nothing selected all become the list. */
  function GuardedView(view: string, hasActive: bool, selected: nat): (r: string)
    ensures KnownView(r)
    ensures !KnownView(view) ==> r == ListView
    ensures view == ScoreView ==> (r == ScoreView <==> hasActive)
    ensures view == StatisticsView ==> (r == StatisticsView <==> selected > 0)
    ensures view == ListView || view == NewView ==> r == view
  {
    if !KnownView(view) then ListView
    else if view == ScoreView && !hasActive then ListView
    else if view == StatisticsView && selected == 0 then ListView
    else view
  }

  /** A state the guard leaves alone. */
  predicate Settled(view: string, hasActive: bool, selected: nat)
  {
    && KnownView(view)
    && (view == ScoreView ==> hasActive)
    && (view == StatisticsView ==> selected > 0)
  }

  /** The guard changes exactly the unsettled states, and what it leaves is settled. */
  lemma GuardSettles(view: string, hasActive: bool, selected: nat)
    ensures Settled(GuardedView(view, hasActive, selected), hasActive, selected)
    ensures GuardedView(view, hasActive, selected) == view <==> Settled(view, hasActive, selected)
  {
  }

  /* ---------------- the selection label ---------------- */

  /** `Analisi su ${n} session${n === 1 ? "e" : "i"}`, or null for an empty selection. */
  function SelectionLabel(n: nat): (r: Option<string>)
    ensures r.None? <==> n == 0
    ensures n == 1 ==> r == Some("Analisi su 1 sessione")
    ensures n >= 2 ==> r == Some("Analisi su " + Text.NatToString(n) + " sessioni")
  {
    if n == 0 then None
    else
      var digits := Text.NatToString(n);
      var t := "Analisi su " + digits + " session" + (if n == 1 then "e" else "i");
      assert n == 1 ==> digits == "1" && t == "Analisi su 1 sessione";
      assert n >= 2 ==> t == "Analisi su " + digits + " sessioni";
      Some(t)
  }

  /** The label names the size of the selection: its digits read back as the count. */
  lemma SelectionLabelNamesCount(n: nat)
    requires n > 0
    ensures var t := SelectionLabel(n).value;
            var digits := Text.NatToString(n);
            t[11..11 + |digits|] == digits && Text.DigitsValue(digits) == n
  {
    Text.DigitsValueOfNatToString(n);
  }

  const CurrentSessionLabel: string := "Analisi della sessione corrente"

  /* ---------------- the state ---------------- */

  class Shell {
    var view: string
    var sessions: seq<Session>
    var active: Option<Session>
    var error: string
    var statsSessions: seq<Session>
    var statsLabel: Option<string>
    var statsBackView: string

    /** The back button of the statistics screen leads to the list or to the scorecard. */
    predicate Valid()
      reads this
    {
      statsBackView == ListView || statsBackView == ScoreView
    }

    constructor()
      ensures Valid()
      ensures view == ListView && sessions == [] && active.None? && error == ""
      ensures statsSessions == [] && statsLabel.None? && statsBackView == ListView
    {
      view := ListView;
      sessions := [];
      active := None;
      error := "";
      statsSessions := [];
      statsLabel := None;
      statsBackView := ListView;
    }

    /** The guard effect. Its three tests read the state it started from. */
    method Guard()
      requires Valid()
      modifies this
      ensures Valid()
      ensures view == GuardedView(old(view), old(active).Some?, |old(statsSessions)|)
      ensures !KnownView(old(view)) ==> active.None?
      ensures KnownView(old(view)) ==> active == old(active)
      ensures Settled(view, active.Some?, |statsSessions|)
      ensures sessions == old(sessions) && error == old(error) && statsSessions == old(statsSessions)
      ensures statsLabel == old(statsLabel) && statsBackView == old(statsBackView)
    {
      var v := view;
      var hasActive := active.Some?;
      var selected := |statsSessions|;
      if v != ListView && v != NewView && v != ScoreView && v != StatisticsView {
        view := ListView;
        active := None;
      }
      if v == ScoreView && !hasActive {
        view := ListView;
      }
      if v == StatisticsView && selected == 0 {
        view := ListView;
      }
    }

    /** `openStatisticsFromList(selectedSessions)`. */
    method OpenStatisticsFromList(selected: seq<Session>)
      requires Valid()
      modifies this
      ensures Valid()
      ensures statsSessions == selected && statsLabel == SelectionLabel(|selected|)
      ensures statsBackView == ListView && view == StatisticsView
      ensures sessions == old(sessions) && active == old(active) && error == old(error)
    {
      statsSessions := selected;
      statsLabel := SelectionLabel(|selected|);
      statsBackView := ListView;
      view := StatisticsView;
    }

    /** `openStatisticsFromScore()`: nothing without a session; otherwise that session alone. */
    method OpenStatisticsFromScore()
      requires Valid()
      modifies this
      ensures Valid()
      ensures old(active).None? ==> view == old(view) && statsSessions == old(statsSessions)
                                    && statsLabel == old(statsLabel) && statsBackView == old(statsBackView)
      ensures old(active).Some? ==> statsSessions == [old(active).value] && statsLabel == Some(CurrentSessionLabel)
                                    && statsBackView == ScoreView && view == StatisticsView
      ensures sessions == old(sessions) && active == old(active) && error == old(error)
    {
      if active.None? {
        return;
      }
      statsSessions := [active.value];
      statsLabel := Some(CurrentSessionLabel);
      statsBackView := ScoreView;
      view := StatisticsView;
    }

    /** `goHome()`. */
    method GoHome()
      requires Valid()
      modifies this
      ensures Valid()
      ensures view == ListView && active.None?
      ensures sessions == old(sessions) && error == old(error) && statsSessions == old(statsSessions)
      ensures statsLabel == old(statsLabel) && statsBackView == old(statsBackView)
    {
      view := ListView;
      active := None;
    }

    /** The statistics screen's back button. */
    method BackFromStatistics()
      requires Valid()
      modifies this
      ensures Valid()
      ensures view == old(statsBackView)
      ensures sessions == old(sessions) && active == old(active) && error == old(error)
      ensures statsSessions == old(statsSessions) && statsLabel == old(statsLabel) && statsBackView == old(statsBackView)
    {
      view := statsBackView;
    }

    /** The "new session" button and the two back buttons that lead to the list. */
    method ShowView(target: string)
      requires Valid()
      requires target == NewView || target == ListView
      modifies this
      ensures Valid()
      ensures view == target
      ensures sessions == old(sessions) && active == old(active) && error == old(error)
      ensures statsSessions == old(statsSessions) && statsLabel == old(statsLabel) && statsBackView == old(statsBackView)
    {
      view := target;
    }

    /** `refresh()`: the error is cleared, then the list is replaced or the error shown. */
    method Refresh(listed: Outcome<seq<Session>>)
      requires Valid()
      modifies this
      ensures Valid()
      ensures listed.Ok? ==> sessions == listed.value && error == ""
      ensures listed.Failed? ==> sessions == old(sessions) && error == listed.message
      ensures view == old(view) && active == old(active)
      ensures statsSessions == old(statsSessions) && statsLabel == old(statsLabel) && statsBackView == old(statsBackView)
    {
      error := "";
      if listed.Ok? {
        sessions := listed.value;
      } else {
        error := listed.message;
      }
    }

    /** `createSession(payload)`: on success the new session is opened for scoring and the list
        reloaded; on failure only the error changes. */
    method CreateSession(created: Outcome<Session>, listed: Outcome<seq<Session>>)
      requires Valid()
      modifies this
      ensures Valid()
      ensures created.Ok? ==> active == Some(created.value) && view == ScoreView
      ensures created.Ok? && listed.Ok? ==> sessions == listed.value && error == ""
      ensures created.Ok? && listed.Failed? ==> sessions == old(sessions) && error == listed.message
      ensures created.Failed? ==> error == created.message && view == old(view) && active == old(active)
                                  && sessions == old(sessions)
      ensures statsSessions == old(statsSessions) && statsLabel == old(statsLabel) && statsBackView == old(statsBackView)
    {
      error := "";
      if created.Failed? {
        error := created.message;
        return;
      }
      active := Some(created.value);
      view := ScoreView;
      Refresh(listed);
    }

    /** `openSession(id)`: the fetched session opened for scoring, or the error. */
    method OpenSession(fetched: Outcome<Session>)
      requires Valid()
      modifies this
      ensures Valid()
      ensures fetched.Ok? ==> active == Some(fetched.value) && view == ScoreView && error == ""
      ensures fetched.Failed? ==> error == fetched.message && view == old(view) && active == old(active)
      ensures sessions == old(sessions)
      ensures statsSessions == old(statsSessions) && statsLabel == old(statsLabel) && statsBackView == old(statsBackView)
    {
      error := "";
      if fetched.Failed? {
        error := fetched.message;
        return;
      }
      active := Some(fetched.value);
      view := ScoreView;
    }

    /** `saveSession(updated)`: like `createSession`, but the outcome is handed back to the
        caller, failure included (the error is rethrown). */
    method SaveSession(saved: Outcome<Session>, listed: Outcome<seq<Session>>) returns (result: Outcome<Session>)
      requires Valid()
      modifies this
      ensures Valid()
      ensures result == saved
      ensures saved.Ok? ==> active == Some(saved.value) && view == ScoreView
      ensures saved.Ok? && listed.Ok? ==> sessions == listed.value && error == ""
      ensures saved.Ok? && listed.Failed? ==> sessions == old(sessions) && error == listed.message
      ensures saved.Failed? ==> error == saved.message && view == old(view) && active == old(active)
                                && sessions == old(sessions)
      ensures statsSessions == old(statsSessions) && statsLabel == old(statsLabel) && statsBackView == old(statsBackView)
    {
      error := "";
      if saved.Failed? {
        error := saved.message;
        return saved;
      }
      active := Some(saved.value);
      view := ScoreView;
      Refresh(listed);
      return saved;
    }

    /** `deleteSession(id)`: the list reloaded, or the error. The view does not change. */
    method DeleteSession(deleted: Outcome<()>, listed: Outcome<seq<Session>>)
      requires Valid()
      modifies this
      ensures Valid()
      ensures deleted.Ok? && listed.Ok? ==> sessions == listed.value && error == ""
      ensures deleted.Ok? && listed.Failed? ==> sessions == old(sessions) && error == listed.message
      ensures deleted.Failed? ==> error == deleted.message && sessions == old(sessions)
      ensures view == old(view) && active == old(active)
      ensures statsSessions == old(statsSessions) && statsLabel == old(statsLabel) && statsBackView == old(statsBackView)
    {
      error := "";
      if deleted.Failed? {
        error := deleted.message;
        return;
      }
      Refresh(listed);
    }
  }

  /** Opening the statistics from the scorecard and pressing back returns to the scorecard, and
      the guard keeps it there, since the session is still open. */
  method StatisticsRoundTrip(shell: Shell)
    requires shell.Valid() && shell.view == ScoreView && shell.active.Some?
    modifies shell
    ensures shell.view == ScoreView && shell.active == old(shell.active)
  {
    shell.OpenStatisticsFromScore();
    shell.Guard();
    shell.BackFromStatistics();
    shell.Guard();
  }
}
