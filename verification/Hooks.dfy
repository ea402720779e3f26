/** The order in which a worker thread calls the virtual functions that a user of the service overrides. */
module Hooks {

  datatype Hook = HInit | HRun | HStop | HDeinit

  predicate Follows(a: Hook, b: Hook) {
    match b
    case HInit => false
    case HRun => a != HDeinit
    case HStop => a == HRun
    case HDeinit => a == HInit || a == HStop
  }

  /** A local description of the hook language. */
  ghost predicate Orderly(h: seq<Hook>) {
    && (h != [] ==> h[0] == HInit)
    && forall i, j :: 0 <= i && j == i + 1 && j < |h| ==> Follows(h[i], h[j])
  }

  /** The hook language: what a worker does in a whole life, `Init (Run+ Stop)* Deinit`, where cycle `i` calls
      `Run` `runs[i] + 1` times. */
  function Session(runs: seq<nat>): seq<Hook> { [HInit] + Cycles(runs) + [HDeinit] }

  function Cycles(runs: seq<nat>): seq<Hook> {
    if runs == [] then []
    else Cycles(runs[..|runs| - 1]) + Runs(runs[|runs| - 1] + 1) + [HStop]
  }

  function Runs(n: nat): seq<Hook> { seq(n, _ => HRun) }

  ghost predicate IsPrefixOfSession(h: seq<Hook>) { exists runs :: h <= Session(runs) }

  /** Splits the hooks called so far into full cycles and a number of `Run`s. */
  lemma {:induction false} Split(h: seq<Hook>) returns (runs: seq<nat>, n: nat)
    requires Orderly(h) && h != [] && h[|h| - 1] != HDeinit
    ensures h == [HInit] + Cycles(runs) + Runs(n)
    ensures n == 0 <==> h[|h| - 1] != HRun
  {
    if |h| == 1 {
      runs, n := [], 0;
    } else {
      var front := h[..|h| - 1];
      runs, n := Split(front);
      assert h == front + [h[|h| - 1]];
      assert Follows(h[|h| - 2], h[|h| - 1]);
      if h[|h| - 1] == HRun {
        n := n + 1;
        assert Runs(n) == Runs(n - 1) + [HRun];
      } else {
        var runs' := runs + [n - 1];
        assert runs'[..|runs'| - 1] == runs;
        runs, n := runs', 0;
      }
    }
  }

  lemma OrderlyIsPrefix(h: seq<Hook>)
    requires Orderly(h)
    ensures IsPrefixOfSession(h)
  {
    if h == [] {
      assert h <= Session([]);
    } else if h[|h| - 1] == HDeinit {
      assert Follows(h[|h| - 2], HDeinit);
      var runs, n := Split(h[..|h| - 1]);
      assert h <= Session(runs);
    } else {
      var runs, n := Split(h);
      if n == 0 {
        assert h <= Session(runs);
      } else {
        var runs' := runs + [n - 1];
        assert runs'[..|runs'| - 1] == runs;
        assert h <= Session(runs');
      }
    }
  }

  lemma {:induction false} SessionOrderly(runs: seq<nat>)
    ensures Orderly([HInit] + Cycles(runs))
    ensures var h := [HInit] + Cycles(runs); h[|h| - 1] == HInit || h[|h| - 1] == HStop
  {
    if runs != [] {
      var init := runs[..|runs| - 1];
      SessionOrderly(init);
      assert [HInit] + Cycles(runs) == [HInit] + Cycles(init) + Runs(runs[|init|] + 1) + [HStop];
    }
  }

  /** The two descriptions of the hook language agree. */
  lemma OrderlyIffPrefix(h: seq<Hook>)
    ensures Orderly(h) <==> IsPrefixOfSession(h)
  {
    if Orderly(h) {
      OrderlyIsPrefix(h);
    }
    if runs :| h <= Session(runs) {
      SessionOrderly(runs);
      assert Orderly(Session(runs));
    }
  }
}
