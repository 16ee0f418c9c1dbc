/** The dataflow component object: input matching performed on its deque in place. */
module ComponentObject {
  import opened Wrappers
  import opened InputMatching

  class Component<V> {
    const nInputs: nat
    const persistent: bool
    var active: bool
    var activated: bool
    var incoming: seq<InputSet<V>>
    /** Log of the tuples the action was run on. */
    var fired: seq<InputSet<V>>
    /** Totals passed to `QdCreate` and `QdProcess`. */
    var created: nat
    var processed: nat

    function Value(): State<V>
      reads this
    {
      State(nInputs, persistent, active, activated, incoming, fired, created, processed)
    }

    constructor (nInputs: nat, persistent: bool)
      requires nInputs >= 1
      ensures this.nInputs == nInputs && this.persistent == persistent
      ensures Value() == Init(nInputs, persistent) && WellFormed(Value())
    {
      this.nInputs, this.persistent := nInputs, persistent;
      active, activated, incoming, fired, created, processed := false, false, [], [], 0, 0;
    }

    /** A non-null value arrives on a port. */
    method AcceptValue(port: nat, val: V)
      requires WellFormed(Value()) && port < nInputs
      modifies this
      ensures Value() == Accept(old(Value()), port, val)
    {
      if nInputs == 1 {
        DirectStage(val);
      } else {
        var search := SearchGap(port);
        var gapless := search == |incoming|;
        if gapless {
          incoming := [Empty(nInputs)] + incoming;
          search := 0;
        }
        incoming := incoming[search := incoming[search][port := Some(val)]];
        created := created + 1;
        if !gapless && Ready(incoming[search]) {
          StageHeld(search);
        } else if gapless {
          assert incoming == [Empty(nInputs)[port := Some(val)]] + old(incoming);
        }
      }
    }

    method ActivateNow()
      requires !active
      modifies this
      ensures Value() == Drain(old(Value()).(active := true, activated := true))
    {
      activated, active := true, true;
      var search := SearchReady();
      while active && search < |incoming|
        invariant search == FindReady(incoming)
        invariant Drain(Value()) == Drain(old(Value()).(active := true, activated := true))
        decreases |incoming|
      {
        StageHeld(search);
        search := SearchReady();
      }
    }

    method DirectStage(val: V)
      modifies this
      ensures Value() == AcceptOnly(old(Value()), val)
    {
      var consumed := StageAction([Some(val)]);
      if !consumed {
        BufferReadySet([Some(val)]);
      }
    }

    method BufferReadySet(ready: InputSet<V>)
      modifies this
      ensures Value() == old(Value()).(incoming := [ready] + old(incoming), created := old(created) + nInputs)
    {
      incoming := [ready] + incoming;
      created := created + nInputs;
    }

    /** Runs the action on the tuple, unless the component is offline. */
    method StageAction(ready: InputSet<V>) returns (consumed: bool)
      modifies this
      ensures consumed == old(active)
      ensures Value() == if consumed then old(Value()).(fired := old(fired) + [ready], active := persistent)
                         else old(Value())
    {
      if active {
        fired := fired + [ready];
        active := persistent;
        return true;
      }
      return false;
    }

    method StageHeld(search: nat)
      requires search < |incoming|
      modifies this
      ensures Value() == StageAt(old(Value()), search)
    {
      var consumed := StageAction(incoming[search]);
      if consumed {
        incoming := incoming[..search] + incoming[search + 1..];
        processed := processed + nInputs;
      }
    }

    /** The newest ready tuple, searched from the front. */
    method SearchReady() returns (search: nat)
      ensures search == FindReady(incoming)
    {
      search := 0;
      while search < |incoming|
        invariant search <= |incoming|
        invariant forall j :: 0 <= j < search ==> !Ready(incoming[j])
      {
        if Ready(incoming[search]) {
          return;
        }
        search := search + 1;
      }
    }

    /** The oldest tuple that lacks the port's value, searched from the back. */
    method SearchGap(port: nat) returns (search: nat)
      requires forall t :: t in incoming ==> port < |t|
      ensures search == FindGap(incoming, port)
    {
      search := |incoming|;
      while search > 0
        invariant search <= |incoming|
        invariant forall j :: search <= j < |incoming| ==> incoming[j][port].Some?
      {
        if incoming[search - 1][port].None? {
          return search - 1;
        }
        search := search - 1;
      }
      return |incoming|;
    }
  }
}
