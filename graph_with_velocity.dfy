/** The rotation graph of one track (demo2fiber/src/GraphWithVelocity.tsx):
    the records to show, with an estimated angular velocity `v` added to
    quaternion records on request, and the keys the graph draws. */
module GraphWithVelocity {
  import opened Js
  import opened Colors

  /** A three.js `Quaternion`. */
  datatype Quat = Quat(x: real, y: real, z: real, w: real)

  /** `v ?? d`, the way a default parameter treats `undefined`. */
  function OrDefault(v: Value, d: real): real
  {
    match v
    case Undefined => d
    case Number(n) => n
  }

  /** `new Quaternion(o.x, o.y, o.z, o.w)`: an undefined argument takes the
      constructor's default, 0 for x, y, z and 1 for w. */
  function QuatOf(o: Object): (q: Quat)
    ensures Get(o, "w") == Undefined ==> q.w == 1.0
    ensures Get(o, "w").Number? ==> q.w == Get(o, "w").n
  {
    Quat(OrDefault(Get(o, "x"), 0.0), OrDefault(Get(o, "y"), 0.0),
         OrDefault(Get(o, "z"), 0.0), OrDefault(Get(o, "w"), 1.0))
  }

  /** The time step handed to the estimator: `(duration ?? 0) / data.length`. */
  function Dt(duration: Option<real>, n: nat): (dt: real)
    requires n > 0
    ensures duration.None? ==> dt == 0.0
    ensures duration.Some? ==> dt * n as real == duration.value
  {
    (match duration case None => 0.0 case Some(d) => d) / n as real
  }

  /** The velocity is added when it is asked for and the first record has a
      defined `w`. */
  predicate VelocityShown(data: seq<Object>, show: bool)
  {
    show && |data| > 0 && Get(data[0], "w") != Undefined
  }

  /** The velocity of record i: 0 for the first, otherwise the estimate
      between the quaternions of records i - 1 and i. */
  function VelocityAt(data: seq<Object>, i: nat, duration: Option<real>,
                      estimate: (Quat, Quat, real) -> real): (v: real)
    requires i < |data|
    ensures i == 0 ==> v == 0.0
  {
    if i == 0 then 0.0 else estimate(QuatOf(data[i - 1]), QuatOf(data[i]), Dt(duration, |data|))
  }

  /** The list the effect stores in `visibleData`. */
  function VisibleData(data: seq<Object>, show: bool, duration: Option<real>,
                       estimate: (Quat, Quat, real) -> real): (visible: seq<Object>)
    ensures |visible| == |data|
    ensures !VelocityShown(data, show) ==> visible == data
  {
    if VelocityShown(data, show) then
      seq(|data|, i requires 0 <= i < |data| => With(data[i], "v", Number(VelocityAt(data, i, duration, estimate))))
    else
      data
  }

  /** With the velocity shown, record 0 gets v = 0 and record i >= 1 the
      estimate between records i - 1 and i; every other field of every
      record is unchanged. */
  lemma VisibleFields(data: seq<Object>, show: bool, duration: Option<real>,
                      estimate: (Quat, Quat, real) -> real, i: nat)
    requires VelocityShown(data, show) && i < |data|
    ensures var r := VisibleData(data, show, duration, estimate)[i];
      && Get(r, "v") == Number(if i == 0 then 0.0 else estimate(QuatOf(data[i - 1]), QuatOf(data[i]), Dt(duration, |data|)))
      && forall k :: k != "v" ==> Get(r, k) == Get(data[i], k) && (Has(r, k) <==> Has(data[i], k))
  {
    WithFields(data[i], "v", Number(VelocityAt(data, i, duration, estimate)));
  }

  /** A record that has no `v` gets it appended as its last key; one that
      has it keeps its key order. */
  lemma VelocityKeyPosition(data: seq<Object>, show: bool, duration: Option<real>,
                            estimate: (Quat, Quat, real) -> real, i: nat)
    requires VelocityShown(data, show) && i < |data|
    ensures !Has(data[i], "v") ==> VisibleData(data, show, duration, estimate)[i].keys == data[i].keys + ["v"]
    ensures Has(data[i], "v") ==> VisibleData(data, show, duration, estimate)[i].keys == data[i].keys
  {
    WithFields(data[i], "v", Number(VelocityAt(data, i, duration, estimate)));
  }

  /** After the effect's loop has reached record i: records 1 to i - 1 have
      their velocity, the others are as in the data. */
  predicate VelocityAddedUpTo(data: seq<Object>, duration: Option<real>, estimate: (Quat, Quat, real) -> real,
                              records: seq<Object>, i: nat)
    requires |records| == |data|
  {
    && (forall j :: 1 <= j < i && j < |data| ==>
          records[j] == With(data[j], "v", Number(VelocityAt(data, j, duration, estimate))))
    && (forall j :: 0 <= j < |data| && (i <= j || j == 0) ==> records[j] == data[j])
  }

  /** One more step of the loop adds the velocity of record i. */
  lemma VelocityAddedStep(data: seq<Object>, duration: Option<real>, estimate: (Quat, Quat, real) -> real,
                          records: seq<Object>, i: nat)
    requires 1 <= i < |data| && |records| == |data|
    requires VelocityAddedUpTo(data, duration, estimate, records, i)
    ensures VelocityAddedUpTo(data, duration, estimate,
      records[i := With(records[i], "v", Number(estimate(QuatOf(data[i - 1]), QuatOf(data[i]), Dt(duration, |data|))))],
      i + 1)
  {
  }

  /** Once the loop is done and record 0 has its 0, the list is the visible data. */
  lemma VelocityAddedAll(data: seq<Object>, show: bool, duration: Option<real>,
                         estimate: (Quat, Quat, real) -> real, records: seq<Object>)
    requires VelocityShown(data, show) && |records| == |data|
    requires VelocityAddedUpTo(data, duration, estimate, records, |data|)
    ensures records[0 := With(records[0], "v", Number(0.0))] == VisibleData(data, show, duration, estimate)
  {
  }

  /** The component's state. */
  class VelocityGraphView {
    var visibleData: seq<Object>

    /** `useState([])`. */
    constructor ()
      ensures visibleData == []
    {
      visibleData := [];
    }

    /** The effect on `[data, showAngularVelocity, duration]`: a copy of the
        data whose records from index 1 on, then record 0, get their `v`. */
    method DataChanged(data: seq<Object>, show: bool, duration: Option<real>,
                       estimate: (Quat, Quat, real) -> real)
      modifies this
      ensures visibleData == VisibleData(data, show, duration, estimate)
    {
      if |data| == 0 {
        visibleData := [];
        return;
      }
      var newVisibleData: seq<Object> := data;
      if show && Get(data[0], "w") != Undefined {
        var i := 1;
        while i < |data|
          invariant 1 <= i <= |data| && |newVisibleData| == |data|
          invariant VelocityAddedUpTo(data, duration, estimate, newVisibleData, i)
        {
          VelocityAddedStep(data, duration, estimate, newVisibleData, i);
          newVisibleData := newVisibleData[i := With(newVisibleData[i], "v",
            Number(estimate(QuatOf(data[i - 1]), QuatOf(data[i]), Dt(duration, |data|))))];
          i := i + 1;
        }
        VelocityAddedAll(data, show, duration, estimate, newVisibleData);
        newVisibleData := newVisibleData[0 := With(newVisibleData[0], "v", Number(0.0))];
      }
      visibleData := newVisibleData;
    }

    /** What the component renders with its current state. */
    function Rendered(): Option<GraphProps>
      reads this
    {
      Render(visibleData)
    }
  }

  // ---------------------------------------------------------------------------
  // The keys the graph draws

  const KeyPriorityOrder: seq<string> := ["x", "y", "z", "w"]

  predicate NoDuplicates(s: seq<string>)
  {
    forall i, j :: 0 <= i < j < |s| ==> s[i] != s[j]
  }

  /** `keyPriorityOrder.filter(key => key in first)`. */
  function PresentKeys(candidates: seq<string>, first: Object): seq<string>
  {
    if |candidates| == 0 then []
    else (if Has(first, candidates[0]) then [candidates[0]] else []) + PresentKeys(candidates[1..], first)
  }

  /** `Object.keys(first).filter(key => key !== 'index' && !keyPriorityOrder.includes(key))`. */
  function OtherKeys(keys: seq<string>): seq<string>
  {
    if |keys| == 0 then []
    else (if keys[0] != "index" && keys[0] !in KeyPriorityOrder then [keys[0]] else []) + OtherKeys(keys[1..])
  }

  /** `dataKeys`. */
  function DataKeys(first: Object): (keys: seq<string>)
    ensures "index" !in keys
  {
    PresentKeysMembers(KeyPriorityOrder, first);
    OtherKeysMembers(first.keys);
    PresentKeys(KeyPriorityOrder, first) + OtherKeys(first.keys)
  }

  /** The priority filter keeps exactly the candidates the record has, each
      once when the candidates are distinct. */
  lemma {:induction false} PresentKeysMembers(candidates: seq<string>, first: Object)
    ensures forall k :: k in PresentKeys(candidates, first) <==> k in candidates && Has(first, k)
    ensures NoDuplicates(candidates) ==> NoDuplicates(PresentKeys(candidates, first))
    decreases |candidates|
  {
    if |candidates| > 0 {
      PresentKeysMembers(candidates[1..], first);
      assert candidates == [candidates[0]] + candidates[1..];
    }
  }

  /** The other-keys filter keeps exactly the keys that are neither `index`
      nor a priority key, each once when the keys are distinct. */
  lemma {:induction false} OtherKeysMembers(keys: seq<string>)
    ensures forall k :: k in OtherKeys(keys) <==> k in keys && k != "index" && k !in KeyPriorityOrder
    ensures NoDuplicates(keys) ==> NoDuplicates(OtherKeys(keys))
    decreases |keys|
  {
    if |keys| > 0 {
      OtherKeysMembers(keys[1..]);
      assert keys == [keys[0]] + keys[1..];
    }
  }

  /** Both filters keep the order of what they filter. */
  lemma {:induction false} PresentKeysAppend(a: seq<string>, b: seq<string>, first: Object)
    ensures PresentKeys(a + b, first) == PresentKeys(a, first) + PresentKeys(b, first)
    decreases |a|
  {
    if |a| == 0 {
      assert a + b == b;
    } else {
      assert (a + b)[1..] == a[1..] + b;
      PresentKeysAppend(a[1..], b, first);
    }
  }

  lemma {:induction false} OtherKeysAppend(a: seq<string>, b: seq<string>)
    ensures OtherKeys(a + b) == OtherKeys(a) + OtherKeys(b)
    decreases |a|
  {
    if |a| == 0 {
      assert a + b == b;
    } else {
      assert (a + b)[1..] == a[1..] + b;
      OtherKeysAppend(a[1..], b);
    }
  }

  /** The drawn keys are exactly the first record's keys other than `index`,
      each once; whichever of x, y, z, w are present come first, in that
      order, followed by every other key. */
  lemma DataKeysAreRecordKeys(first: Object)
    ensures forall k :: k in DataKeys(first) <==> Has(first, k) && k != "index"
    ensures NoDuplicates(DataKeys(first))
    ensures var m := |PresentKeys(KeyPriorityOrder, first)|;
      && (forall i :: 0 <= i < m ==> DataKeys(first)[i] in KeyPriorityOrder)
      && (forall i :: m <= i < |DataKeys(first)| ==> DataKeys(first)[i] !in KeyPriorityOrder)
  {
    var p, o := PresentKeys(KeyPriorityOrder, first), OtherKeys(first.keys);
    assert NoDuplicates(KeyPriorityOrder);
    PresentKeysMembers(KeyPriorityOrder, first);
    OtherKeysMembers(first.keys);
    var d := p + o;
    forall i, j | 0 <= i < j < |d| ensures d[i] != d[j] {
      if i < |p| && |p| <= j {
        assert d[i] in p && d[j] in o;
      }
    }
    forall i | |p| <= i < |d| ensures d[i] !in KeyPriorityOrder {
      assert d[i] in o;
    }
    forall i | 0 <= i < |p| ensures d[i] in KeyPriorityOrder {
      assert d[i] in p;
    }
  }

  /** The priority keys of a record holding x, y and z but no w. */
  lemma PriorityKeysWithoutW(first: Object)
    requires Has(first, "x") && Has(first, "y") && Has(first, "z") && !Has(first, "w")
    ensures PresentKeys(KeyPriorityOrder, first) == ["x", "y", "z"]
  {
    var p := KeyPriorityOrder;
    assert p[1..] == ["y", "z", "w"] && p[1..][1..] == ["z", "w"] && p[1..][1..][1..] == ["w"];
    assert PresentKeys(["w"], first) == [];
    assert PresentKeys(["z", "w"], first) == ["z"];
    assert PresentKeys(["y", "z", "w"], first) == ["y", "z"];
  }

  /** The priority keys of a record holding all of x, y, z and w. */
  lemma PriorityKeysWithW(first: Object)
    requires Has(first, "x") && Has(first, "y") && Has(first, "z") && Has(first, "w")
    ensures PresentKeys(KeyPriorityOrder, first) == KeyPriorityOrder
  {
    var p := KeyPriorityOrder;
    assert p[1..] == ["y", "z", "w"] && p[1..][1..] == ["z", "w"] && p[1..][1..][1..] == ["w"];
    assert PresentKeys(["w"], first) == ["w"];
    assert PresentKeys(["z", "w"], first) == ["z", "w"];
    assert PresentKeys(["y", "z", "w"], first) == ["y", "z", "w"];
  }

  /** The drawn keys of a track record, `{index, x, y, z}`. */
  lemma DataKeysOfTrackRecord(first: Object)
    requires first.keys == ["index", "x", "y", "z"]
    ensures DataKeys(first) == ["x", "y", "z"]
  {
    HasIffListed(first, "x");
    HasIffListed(first, "y");
    HasIffListed(first, "z");
    HasIffListed(first, "w");
    PriorityKeysWithoutW(first);
    NoOtherKeysInTrackRecord();
    assert DataKeys(first) == ["x", "y", "z"] + [];
  }

  /** Track record keys are all `index` or priority keys. */
  lemma NoOtherKeysInTrackRecord()
    ensures OtherKeys(["index", "x", "y", "z"]) == []
  {
    var keys := ["index", "x", "y", "z"];
    assert keys[1..] == ["x", "y", "z"] && keys[1..][1..] == ["y", "z"] && keys[1..][1..][1..] == ["z"];
  }

  /** Quaternion record keys are all `index` or priority keys. */
  lemma NoOtherKeysInQuaternionRecord()
    ensures OtherKeys(["index", "x", "y", "z", "w"]) == []
  {
    assert ["index", "x", "y", "z", "w"] == ["index", "x", "y", "z"] + ["w"];
    OtherKeysAppend(["index", "x", "y", "z"], ["w"]);
    NoOtherKeysInTrackRecord();
    assert OtherKeys(["w"]) == [];
  }

  /** The drawn keys of a quaternion record, `{index, x, y, z, w}`. */
  lemma DataKeysOfQuaternionRecord(first: Object)
    requires first.keys == ["index", "x", "y", "z", "w"]
    ensures DataKeys(first) == ["x", "y", "z", "w"]
  {
    HasIffListed(first, "x");
    HasIffListed(first, "y");
    HasIffListed(first, "z");
    HasIffListed(first, "w");
    PriorityKeysWithW(first);
    NoOtherKeysInQuaternionRecord();
    assert DataKeys(first) == KeyPriorityOrder + [];
  }

  /** Among the keys of a quaternion record with its velocity, `v` is the
      only one outside the priority list besides `index`. */
  lemma VelocityIsTheOtherKey()
    ensures OtherKeys(["index", "x", "y", "z", "w", "v"]) == ["v"]
  {
    assert ["index", "x", "y", "z", "w", "v"] == ["index", "x", "y", "z", "w"] + ["v"];
    OtherKeysAppend(["index", "x", "y", "z", "w"], ["v"]);
    NoOtherKeysInQuaternionRecord();
    assert "v" !in KeyPriorityOrder;
  }

  /** The drawn keys of a quaternion record with its velocity: `v` last. */
  lemma DataKeysOfVelocityRecord(first: Object)
    requires first.keys == ["index", "x", "y", "z", "w", "v"]
    ensures DataKeys(first) == KeyPriorityOrder + ["v"]
  {
    HasIffListed(first, "x");
    HasIffListed(first, "y");
    HasIffListed(first, "z");
    HasIffListed(first, "w");
    PriorityKeysWithW(first);
    VelocityIsTheOtherKey();
  }

  // ---------------------------------------------------------------------------
  // Rendering

  /** The colours handed to the graph, line i in colour i. */
  const VelocityColors: seq<Color> := [StrawberryRed, TeaGreen, SkyBlue, PlumMagenta, AshGray, SunYellow, RamuneCyan]

  /** The props of the `FrontierGraph` the component renders. */
  datatype GraphProps = GraphProps(data: seq<Object>, colors: seq<Color>, dataKeys: seq<string>)

  /** `null` for an empty list, otherwise the graph of the list. */
  function Render(visible: seq<Object>): (props: Option<GraphProps>)
    ensures props.None? <==> |visible| == 0
    ensures props.Some? ==> props.value.data == visible && props.value.dataKeys == DataKeys(visible[0])
  {
    if |visible| == 0 then None else Some(GraphProps(visible, VelocityColors, DataKeys(visible[0])))
  }

  /** Empty data renders nothing, whatever the switch and the duration. */
  lemma EmptyDataRendersNothing(show: bool, duration: Option<real>, estimate: (Quat, Quat, real) -> real)
    ensures Render(VisibleData([], show, duration, estimate)) == None
  {
  }

  /** Shown velocity is the last key drawn for a track of quaternion records. */
  lemma VelocityDrawnLast(data: seq<Object>, show: bool, duration: Option<real>,
                          estimate: (Quat, Quat, real) -> real)
    requires |data| > 0 && data[0].keys == ["index", "x", "y", "z", "w"] && Get(data[0], "w") != Undefined && show
    ensures Render(VisibleData(data, show, duration, estimate)).value.dataKeys == KeyPriorityOrder + ["v"]
  {
    var first := VisibleData(data, show, duration, estimate)[0];
    HasIffListed(data[0], "v");
    VelocityKeyPosition(data, show, duration, estimate, 0);
    assert first.keys == ["index", "x", "y", "z", "w"] + ["v"];
    DataKeysOfVelocityRecord(first);
  }
}
