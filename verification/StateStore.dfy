/** The mutable record of one identity and the in-memory store that versions it. */
module StateStore {
  import opened Schemas
  import opened Identity

  /** One identity's record, as a caller holds it between load and commit. */
  class IdentityState {
    var trust: int
    var devices: set<string>
    var geos: set<string>
    var hours: seq<Hour>
    var amounts: seq<real>
    var eventCount: nat
    var burst: real
    var lastEventTs: real
    var recoveredInWindow: int
    var recoveryWindowStart: real
    var riskWindow: seq<real>
    var riskEwma: real
    var cusum: real
    var underReview: bool
    var coldPriorUsed: bool
    var lastGeo: string
    var lastGeoTs: real
    var version: nat

    function View(): Snapshot
      reads this
    {
      Snapshot(Profile(devices, geos, hours, amounts, eventCount, lastGeo, lastGeoTs),
               Budget(trust, recoveredInWindow, recoveryWindowStart),
               Baseline(riskWindow, riskEwma, cusum),
               burst, lastEventTs, underReview, coldPriorUsed, version)
    }

    /** A deep copy of a stored record. */
    constructor (s: Snapshot)
      ensures View() == s
    {
      trust, recoveredInWindow, recoveryWindowStart := s.budget.trust, s.budget.recovered, s.budget.start;
      devices, geos, hours, amounts := s.profile.devices, s.profile.geos, s.profile.hours, s.profile.amounts;
      eventCount, lastGeo, lastGeoTs := s.profile.eventCount, s.profile.lastGeo, s.profile.lastGeoTs;
      riskWindow, riskEwma, cusum := s.baseline.window, s.baseline.ewma, s.baseline.cusum;
      burst, lastEventTs, underReview := s.burst, s.lastEventTs, s.underReview;
      coldPriorUsed, version := s.coldPriorUsed, s.version;
    }
  }

  class InMemoryStateStore {
    /** Records are copied on the way in and on the way out, so the store holds values. */
    var data: map<string, Snapshot>
    var devices: map<string, set<string>>

    constructor ()
      ensures data == map[] && devices == map[]
    {
      data, devices := map[], map[];
    }

    function Stored(id: string): Snapshot
      reads this
    {
      if id in data then data[id] else UNSEEN
    }

    function Sharers(device: string): set<string>
      reads this
    {
      if device in devices then devices[device] else {}
    }

    method Load(id: string) returns (state: IdentityState)
      ensures fresh(state) && state.View() == Stored(id)
    {
      state := new IdentityState(Stored(id));
    }

    /** Compare-and-set: no write unless the stored version is the expected one. */
    method Commit(id: string, state: IdentityState, expected: nat) returns (ok: bool)
      modifies this`data
      ensures ok <==> old(Stored(id)).version == expected
      ensures data == if ok then old(data)[id := state.View().(version := expected + 1)] else old(data)
    {
      if Stored(id).version != expected {
        return false;
      }
      data := data[id := state.View().(version := expected + 1)];
      return true;
    }

    /** Links a device to an identity and counts who shares it. */
    method DeviceAdd(device: string, id: string) returns (count: nat)
      modifies this`devices
      ensures devices == old(devices)[device := old(Sharers(device)) + {id}]
      ensures count == |old(Sharers(device)) + {id}| >= 1
    {
      var ids := Sharers(device) + {id};
      devices := devices[device := ids];
      assert ids - {id} < ids;
      count := |ids|;
      assert count != 0;
    }
  }
}
