/**
 * Admission on concrete inputs: a stranger queues, then a main player is
 * admitted and paired with it.
 */
module Scenario {
  import opened Text
  import opened Protocol
  import opened Admission

  function Msg(from: PlayerId, body: string, sid: string): TxtMessage {
    TxtMessage(from, body, "", sid)
  }

  /** S1's "stranger join" is queued. */
  lemma StrangerQueuedScenario()
    ensures StrangerRequests({}, [Msg("S1", "stranger join", "a")]) == ["S1"]
  {
    var m := Msg("S1", "stranger join", "a");
    assert AcceptsStranger({}, m) by {
      VerbatimMatches("stranger join");
    }
    assert StrangerRequests({}, [m]) == [m.from] + StrangerRequests({}, [m][1..]);
    assert [m][1..] == [];
  }

  /** P1's "who dis" pairs P1 with the queued S1 and reserves both. */
  lemma DispatchScenario()
    ensures var d := Dispatch([Msg("P1", "who dis", "b")], ["S1"], {});
      && d.games == [Pairing("P1", "S1")] && d.busy == {"P1", "S1"} && d.waiting == None
      && d.out == [Notice("P1", WaitingForStranger), Notice("P1", FoundStranger)]
  {
    var m := Msg("P1", "who dis", "b");
    assert AdmitsMain({}, m) by {
      VerbatimMatches("who dis");
    }
    var rest := Dispatch([m][1..], [], {"P1", "S1"});
    assert rest == Dispatched([], None, {"P1", "S1"}, []) by {
      assert [m][1..] == [];
    }
    assert Dispatch([m], ["S1"], {}).games == [Pairing("P1", "S1")] + rest.games;
    assert Dispatch([m], ["S1"], {}).out == [Notice("P1", WaitingForStranger), Notice("P1", FoundStranger)] + rest.out;
  }
}
