// Building runs of the protocol one step at a time.
module Runs {
  import opened Protocol

  lemma {:induction false} OneMore(c: Config, s: Sys, events: seq<Event>, e: Event)
    requires Run(c, s, events) && Enabled(c, After(c, s, events), e)
    ensures Run(c, s, events + [e])
    ensures After(c, s, events + [e]) == Next(c, After(c, s, events), e)
    decreases |events|
  {
    if events == [] {
      assert events + [e] == [e] && [e][1..] == [];
      assert Run(c, Next(c, s, e), []);
    } else {
      OneMore(c, Next(c, s, events[0]), events[1..], e);
      assert (events + [e])[1..] == events[1..] + [e];
    }
  }

  // A run from `s` to `t` whose events are all of one kind.
  ghost predicate Reaches(c: Config, kind: Event -> bool, s: Sys, t: Sys) {
    exists events :: Run(c, s, events) && After(c, s, events) == t && forall e :: e in events ==> kind(e)
  }

  lemma Here(c: Config, kind: Event -> bool, s: Sys)
    ensures Reaches(c, kind, s, s)
  {
    assert Run(c, s, []) && After(c, s, []) == s;
  }

  lemma Go(c: Config, kind: Event -> bool, start: Sys, s: Sys, e: Event) returns (t: Sys)
    requires Reaches(c, kind, start, s) && Enabled(c, s, e) && kind(e)
    ensures t == Next(c, s, e) && Reaches(c, kind, start, t)
  {
    var events :| Run(c, start, events) && After(c, start, events) == s && forall e :: e in events ==> kind(e);
    OneMore(c, start, events, e);
    t := Next(c, s, e);
  }
}
