/**
 The driver's seqlock. One writer (the IPC thread) replaces whole transactions scalar by scalar
 between two increments of the sequence counter; pose threads copy scalars one by one, retry a few
 times, and fall back on their last good copy.

 A scalar is a number standing for its bit pattern. Steps are sequentially consistent, and the
 counter does not wrap. Readers write nothing the others read (a device's own last good copy is
 under its pose mutex), so one reader against the writer is every interleaving.
 */
module RuntimeSnapshot {
  import opened Common

  const SlotCells: nat := 19
  const PayloadCells: nat := 16
  const MaxAnchors: nat := 8
  const AnchorCells: nat := 10
  const FieldBase: nat := 1216
  const FieldCells: nat := 84
  const Cells: nat := 1300
  const Attempts: nat := 8

  type Memory = m: seq<nat> | |m| == Cells witness seq(Cells, _ => 0)

  // ---------------------------------------------------------------------------
  // What a reader is after
  // ---------------------------------------------------------------------------

  datatype Snapshot = Snapshot(
    enabled: bool, hidden: bool, generation: nat, payload: seq<nat>,
    fieldEnabled: bool, fieldGeneration: nat, anchorCount: nat, sigma: nat, anchors: seq<nat>)

  /** The protocol's defaults: identity rotations, scale one, everything else zero. */
  datatype Defaults = Defaults(payload: seq<nat>, sigma: nat)

  function Slot(device: nat): (base: nat)
    requires device < Slots
    ensures base + SlotCells <= FieldBase
  {
    device * SlotCells
  }

  function AnchorBase(i: nat): (base: nat)
    requires i <= MaxAnchors
    ensures i < MaxAnchors ==> base + AnchorCells <= Cells
    ensures base <= Cells
  {
    FieldBase + 4 + i * AnchorCells
  }

  function Enabled(m: Memory, device: nat): bool
    requires device < Slots
  {
    m[Slot(device)] != 0
  }

  function FieldEnabled(m: Memory): bool { m[FieldBase] != 0 }

  /** The device's view of one memory: payloads that are not enabled keep the defaults. */
  function Project(defaults: Defaults, m: Memory, device: nat): Snapshot
    requires device < Slots
  {
    var at := Slot(device);
    var count := if m[FieldBase + 2] <= MaxAnchors then m[FieldBase + 2] else MaxAnchors;
    Snapshot(
      Enabled(m, device), m[at + 1] != 0, m[at + 2],
      if Enabled(m, device) then m[at + 3..at + SlotCells] else defaults.payload,
      FieldEnabled(m),
      if FieldEnabled(m) then m[FieldBase + 1] else 0,
      if FieldEnabled(m) then m[FieldBase + 2] else 0,
      if FieldEnabled(m) then m[FieldBase + 3] else defaults.sigma,
      if FieldEnabled(m) then m[AnchorBase(0)..AnchorBase(count)] else [])
  }

  // ---------------------------------------------------------------------------
  // Transactions
  // ---------------------------------------------------------------------------

  datatype Store = Store(address: nat, value: nat)

  /** `values` stored one by one from `base` up. */
  function Block(base: nat, values: seq<nat>): (stores: seq<Store>)
    ensures |stores| == |values|
  {
    seq(|values|, i requires 0 <= i < |values| => Store(base + i, values[i]))
  }

  /** A slot's scalars in the order they are stored, with the flags made zero or one. */
  datatype SlotImage = SlotImage(enabled: bool, hidden: bool, generation: nat, payload: seq<nat>)
  {
    predicate Valid() { |payload| == PayloadCells }

    function Scalars(): (s: seq<nat>)
      requires Valid()
      ensures |s| == SlotCells
    {
      [if enabled then 1 else 0, if hidden then 1 else 0, generation] + payload
    }
  }

  datatype FieldImage = FieldImage(enabled: bool, generation: nat, anchorCount: nat, sigma: nat, anchors: seq<nat>)
  {
    predicate Valid() { anchorCount <= MaxAnchors && |anchors| == MaxAnchors * AnchorCells }

    function Scalars(): (s: seq<nat>)
      requires Valid()
      ensures |s| == FieldCells
    {
      [if enabled then 1 else 0, generation, anchorCount, sigma] + anchors
    }
  }

  datatype Transaction =
    | SetDeviceTransform(device: nat, slot: SlotImage)
    | SetRuntimeState(slots: seq<SlotImage>, field: FieldImage)
  {
    predicate Valid() {
      match this
      case SetDeviceTransform(device, slot) => device < Slots && slot.Valid()
      case SetRuntimeState(slots, field) =>
        |slots| == Slots && field.Valid() && forall i :: 0 <= i < Slots ==> slots[i].Valid()
    }
  }

  function SlotScalars(slots: seq<SlotImage>): (s: seq<nat>)
    requires forall i :: 0 <= i < |slots| ==> slots[i].Valid()
    ensures |s| == |slots| * SlotCells
  {
    if slots == [] then [] else SlotScalars(slots[..|slots| - 1]) + slots[|slots| - 1].Scalars()
  }

  function Stores(tx: Transaction): seq<Store>
    requires tx.Valid()
  {
    match tx
    case SetDeviceTransform(device, slot) => Block(Slot(device), slot.Scalars())
    case SetRuntimeState(slots, field) => Block(0, SlotScalars(slots) + field.Scalars())
  }

  /** Every address exists, and no stored anchor count reaches past the anchors. */
  predicate Sound(stores: seq<Store>) {
    forall i :: 0 <= i < |stores| ==>
      stores[i].address < Cells && (stores[i].address == FieldBase + 2 ==> stores[i].value <= MaxAnchors)
  }

  function Stored(m: Memory, stores: seq<Store>): Memory
    requires Sound(stores)
    decreases |stores|
  {
    if stores == [] then m else Stored(m[stores[0].address := stores[0].value], stores[1..])
  }

  lemma StoresAreSound(tx: Transaction)
    requires tx.Valid()
    ensures Sound(Stores(tx))
  {
  }

  function Effect(m: Memory, tx: Transaction): Memory
    requires tx.Valid()
  {
    StoresAreSound(tx);
    Stored(m, Stores(tx))
  }

  lemma {:induction false} StoredBlock(m: Memory, base: nat, values: seq<nat>)
    requires base + |values| <= Cells && Sound(Block(base, values))
    ensures Stored(m, Block(base, values)) == m[..base] + values + m[base + |values|..]
    decreases |values|
  {
    if values != [] {
      var rest := m[base := values[0]];
      assert Block(base, values)[1..] == Block(base + 1, values[1..]);
      StoredBlock(rest, base + 1, values[1..]);
      assert m[..base] + values + m[base + |values|..] ==
             rest[..base + 1] + values[1..] + rest[base + 1 + |values[1..]|..];
    } else {
      assert m[..base] + values + m[base + |values|..] == m;
    }
  }

  lemma {:induction false} SlotScalarsAt(slots: seq<SlotImage>, device: nat)
    requires device < |slots| && forall i :: 0 <= i < |slots| ==> slots[i].Valid()
    ensures device * SlotCells + SlotCells <= |SlotScalars(slots)|
    ensures SlotScalars(slots)[device * SlotCells..device * SlotCells + SlotCells] == slots[device].Scalars()
    decreases |slots|
  {
    var before := slots[..|slots| - 1];
    if device < |slots| - 1 {
      SlotScalarsAt(before, device);
      assert SlotScalars(slots)[device * SlotCells..device * SlotCells + SlotCells] ==
             SlotScalars(before)[device * SlotCells..device * SlotCells + SlotCells];
    }
  }

  /** A runtime state replaces all of it: each device its own slot, and the one field. */
  lemma RuntimeStateReplacesAll(defaults: Defaults, m: Memory, slots: seq<SlotImage>, field: FieldImage, device: nat)
    requires SetRuntimeState(slots, field).Valid() && device < Slots
    ensures Sound(Stores(SetRuntimeState(slots, field)))
    ensures Project(defaults, Stored(m, Stores(SetRuntimeState(slots, field))), device) ==
            Snapshot(slots[device].enabled, slots[device].hidden, slots[device].generation,
                     if slots[device].enabled then slots[device].payload else defaults.payload,
                     field.enabled, if field.enabled then field.generation else 0,
                     if field.enabled then field.anchorCount else 0, if field.enabled then field.sigma else defaults.sigma,
                     if field.enabled then field.anchors[..field.anchorCount * AnchorCells] else [])
  {
    StoresAreSound(SetRuntimeState(slots, field));
    var all := SlotScalars(slots) + field.Scalars();
    StoredBlock(m, 0, all);
    assert Stored(m, Stores(SetRuntimeState(slots, field))) == all;
    SlotOfImage(slots, field.Scalars(), device);
    FieldOfImage(SlotScalars(slots), field);
    hide SlotScalars, Stored, Stores;
  }

  lemma SlotOfImage(slots: seq<SlotImage>, rest: seq<nat>, device: nat)
    requires |slots| == Slots && device < Slots && |rest| == FieldCells
    requires forall i :: 0 <= i < |slots| ==> slots[i].Valid()
    ensures var all := SlotScalars(slots) + rest;
            var at := Slot(device);
            && all[at] == (if slots[device].enabled then 1 else 0) && all[at + 1] == (if slots[device].hidden then 1 else 0)
            && all[at + 2] == slots[device].generation && all[at + 3..at + SlotCells] == slots[device].payload
  {
    SlotScalarsAt(slots, device);
    var s, at, all := slots[device].Scalars(), Slot(device), SlotScalars(slots) + rest;
    hide SlotScalars;
    assert all[at..at + SlotCells] == s;
    assert all[at] == s[0] && all[at + 1] == s[1] && all[at + 2] == s[2];
    assert all[at + 3..at + SlotCells] == s[3..] == slots[device].payload;
  }

  lemma FieldOfImage(before: seq<nat>, field: FieldImage)
    requires |before| == FieldBase && field.Valid()
    ensures var all := before + field.Scalars();
            && all[FieldBase] == (if field.enabled then 1 else 0) && all[FieldBase + 1] == field.generation
            && all[FieldBase + 2] == field.anchorCount && all[FieldBase + 3] == field.sigma
            && all[AnchorBase(0)..AnchorBase(field.anchorCount)] == field.anchors[..field.anchorCount * AnchorCells]
  {
  }

  /** A single device's transform leaves the field and every other device as they were. */
  lemma DeviceTransformTouchesOneSlot(defaults: Defaults, m: Memory, device: nat, slot: SlotImage, other: nat)
    requires SetDeviceTransform(device, slot).Valid() && other < Slots
    ensures Sound(Stores(SetDeviceTransform(device, slot)))
    ensures var after := Project(defaults, Stored(m, Stores(SetDeviceTransform(device, slot))), other);
            var before := Project(defaults, m, other);
            if other == device then
              after == before.(enabled := slot.enabled, hidden := slot.hidden, generation := slot.generation,
              payload := if slot.enabled then slot.payload else defaults.payload)
            else after == before
  {
    var tx := SetDeviceTransform(device, slot);
    StoresAreSound(tx);
    StoredBlock(m, Slot(device), slot.Scalars());
    FieldIsKept(m, Slot(device), slot.Scalars());
    if other == device {
      SlotIsStored(m, device, slot);
    } else {
      SlotIsKept(m, device, slot.Scalars(), other);
    }
    hide Stores, Stored;
  }

  function Overwritten(m: Memory, base: nat, values: seq<nat>): Memory
    requires base + |values| <= Cells
  {
    m[..base] + values + m[base + |values|..]
  }

  lemma FieldIsKept(m: Memory, base: nat, values: seq<nat>)
    requires base + |values| <= FieldBase
    ensures forall k :: FieldBase <= k < Cells ==> Overwritten(m, base, values)[k] == m[k]
    ensures forall i | 0 <= i <= MaxAnchors ::
              Overwritten(m, base, values)[AnchorBase(0)..AnchorBase(i)] == m[AnchorBase(0)..AnchorBase(i)]
  {
  }

  lemma SlotIsStored(m: Memory, device: nat, slot: SlotImage)
    requires device < Slots && slot.Valid()
    ensures var after, at, s := Overwritten(m, Slot(device), slot.Scalars()), Slot(device), slot.Scalars();
            && after[at] == s[0] && after[at + 1] == s[1] && after[at + 2] == s[2]
            && after[at + 3..at + SlotCells] == slot.payload
  {
    assert slot.Scalars()[3..] == slot.payload;
  }

  lemma SlotIsKept(m: Memory, device: nat, values: seq<nat>, other: nat)
    requires device < Slots && other < Slots && other != device && |values| == SlotCells
    ensures var after, at := Overwritten(m, Slot(device), values), Slot(other);
            && after[at] == m[at] && after[at + 1] == m[at + 1] && after[at + 2] == m[at + 2]
            && after[at + 3..at + SlotCells] == m[at + 3..at + SlotCells]
  {
    var at := Slot(other);
    assert at + SlotCells <= Slot(device) || Slot(device) + SlotCells <= at;
  }

  // ---------------------------------------------------------------------------
  // The provider
  // ---------------------------------------------------------------------------

  class Provider {
    const defaults: Defaults

    var runtimeSequence: nat
    var cells: seq<nat>
    var lastGood: seq<Snapshot>

    // The writer: what is left of the transaction in flight, and the transactions after it.
    var inFlight: bool
    var pending: seq<Store>
    var work: seq<Transaction>
    // How many writer steps fall before each of the reader's coming steps.
    var traffic: seq<nat>

    // The memory after each transaction, and the transaction each device's last good copy shows.
    ghost var committed: seq<Memory>
    ghost var shown: seq<nat>
    // The transactions begun so far, in order.
    ghost var begun: seq<Transaction>

    ghost predicate WriterValid()
      reads `runtimeSequence, `cells, `inFlight, `pending, `work, `committed, `begun
    {
      && |cells| == Cells && committed != []
      && runtimeSequence == 2 * (|committed| - 1) + (if inFlight then 1 else 0)
      && (!inFlight ==> cells == committed[|committed| - 1] && pending == [])
      && Sound(pending) && cells[FieldBase + 2] <= MaxAnchors
      && (forall i :: 0 <= i < |work| ==> work[i].Valid())
      && CommittedInOrder()
    }

    /** Each memory is the one before it with one whole transaction stored over it. */
    ghost predicate CommittedInOrder()
      reads `cells, `inFlight, `pending, `committed, `begun
    {
      && |cells| == Cells && Sound(pending)
      && |begun| == |committed| - 1 + (if inFlight then 1 else 0)
      && (forall i :: 0 <= i < |begun| ==> begun[i].Valid())
      && (forall i :: 0 <= i < |committed| - 1 ==> committed[i + 1] == Effect(committed[i], begun[i]))
      && (inFlight && committed != [] ==>
           Stored(cells, pending) == Effect(committed[|committed| - 1], begun[|begun| - 1]))
    }

    ghost predicate Valid()
      reads this
    {
      && WriterValid()
      && |lastGood| == Slots && |shown| == Slots
      && forall d :: 0 <= d < Slots ==>
           shown[d] < |committed| && lastGood[d] == Project(defaults, committed[shown[d]], d)
    }

    constructor (defaults: Defaults, work: seq<Transaction>, traffic: seq<nat>)
      requires forall i :: 0 <= i < |work| ==> work[i].Valid()
      ensures Valid() && this.work == work && this.traffic == traffic && |committed| == 1 && !inFlight
      ensures this.defaults == defaults
    {
      var neutral: Memory := seq(Cells, _ => 0);
      this.defaults := defaults;
      runtimeSequence, cells, inFlight, pending := 0, neutral, false, [];
      this.work, this.traffic := work, traffic;
      committed, begun := [neutral], [];
      lastGood := seq(Slots, d requires 0 <= d < Slots => Project(defaults, neutral, d));
      shown := seq(Slots, _ => 0);
    }

    // --- the writer ---

    /** One atomic access of the IPC thread. */
    method WriterStep()
      requires WriterValid()
      modifies `runtimeSequence, `cells, `inFlight, `pending, `work, `committed, `begun
      ensures WriterValid() && old(committed) <= committed && old(runtimeSequence) <= runtimeSequence
      ensures begun + work == old(begun + work)
      // Payload only changes while the counter is odd.
      ensures runtimeSequence == old(runtimeSequence) && runtimeSequence % 2 == 0 ==> cells == old(cells)
    {
      hide CommittedInOrder;
      if inFlight && pending != [] {
        StoreScalar();
      } else if inFlight {
        Finish();
      } else if work != [] {
        Begin();
      }
    }

    method StoreScalar()
      requires WriterValid() && inFlight && pending != []
      modifies `cells, `pending
      ensures WriterValid() && cells == old(cells)[old(pending)[0].address := old(pending)[0].value]
      ensures pending == old(pending)[1..]
    {
      cells := cells[pending[0].address := pending[0].value];
      pending := pending[1..];
    }

    /** The second increment publishes the transaction. */
    method Finish()
      requires WriterValid() && inFlight && pending == []
      modifies `runtimeSequence, `inFlight, `committed
      ensures WriterValid() && !inFlight && runtimeSequence == old(runtimeSequence) + 1
      ensures committed == old(committed) + [Effect(old(committed)[|old(committed)| - 1], begun[|begun| - 1])]
    {
      runtimeSequence, inFlight := runtimeSequence + 1, false;
      committed := committed + [cells];
    }

    /** The first increment makes the counter odd before any scalar changes. */
    method Begin()
      requires WriterValid() && !inFlight && work != []
      modifies `runtimeSequence, `inFlight, `pending, `work, `begun
      ensures WriterValid() && inFlight && runtimeSequence == old(runtimeSequence) + 1
      ensures begun == old(begun) + [old(work)[0]] && work == old(work)[1..]
    {
      runtimeSequence, inFlight := runtimeSequence + 1, true;
      StoresAreSound(work[0]);
      begun := begun + [work[0]];
      pending, work := Stores(work[0]), work[1..];
    }

    /** Transactions are only added, in the order they were asked for, and with no traffic left nothing happens at all. */
    twostate predicate Onward()
      reads `committed, `runtimeSequence, `traffic, `begun, `work
    {
      && begun + work == old(begun + work)
      && old(committed) <= committed && old(runtimeSequence) <= runtimeSequence && |traffic| <= |old(traffic)|
      && (old(traffic) == [] ==>
           traffic == [] && runtimeSequence == old(runtimeSequence) && committed == old(committed))
    }

    /** Whatever the writer does before the reader's next access. */
    method Interfere()
      requires WriterValid()
      modifies `runtimeSequence, `cells, `inFlight, `pending, `work, `committed, `begun, `traffic
      ensures WriterValid() && Onward() && (old(traffic) != [] ==> |traffic| < |old(traffic)|)
      ensures runtimeSequence == old(runtimeSequence) && runtimeSequence % 2 == 0 ==> cells == old(cells)
    {
      hide CommittedInOrder;
      if traffic != [] {
        var steps := traffic[0];
        traffic := traffic[1..];
        for i := 0 to steps
          modifies `runtimeSequence, `cells, `inFlight, `pending, `work, `committed, `begun
          invariant WriterValid() && old(committed) <= committed && old(runtimeSequence) <= runtimeSequence
          invariant begun + work == old(begun + work)
          invariant runtimeSequence == old(runtimeSequence) && runtimeSequence % 2 == 0 ==> cells == old(cells)
        {
          WriterStep();
        }
      }
    }

    // --- one pose thread ---

    /** As long as the counter still reads `before`, memory is the transaction `tx`. */
    ghost predicate Steady(before: nat, tx: Memory)
      reads `runtimeSequence, `cells
    {
      before % 2 == 0 && before <= runtimeSequence && (runtimeSequence == before ==> cells == tx)
    }

    method LoadCell(address: nat, ghost before: nat, ghost tx: Memory) returns (value: nat)
      requires WriterValid() && address < Cells && Steady(before, tx)
      modifies `runtimeSequence, `cells, `inFlight, `pending, `work, `committed, `begun, `traffic
      ensures WriterValid() && Onward()
      ensures Steady(before, tx) && (runtimeSequence == before ==> value == tx[address])
      ensures runtimeSequence == before ==> old(runtimeSequence) == before
      ensures address == FieldBase + 2 ==> value <= MaxAnchors
    {
      Interfere();
      value := cells[address];
    }

    method LoadCells(base: nat, count: nat, ghost before: nat, ghost tx: Memory) returns (values: seq<nat>)
      requires WriterValid() && base + count <= Cells && Steady(before, tx)
      modifies `runtimeSequence, `cells, `inFlight, `pending, `work, `committed, `begun, `traffic
      ensures WriterValid() && Onward()
      ensures Steady(before, tx) && |values| == count && (runtimeSequence == before ==> values == tx[base..base + count])
      ensures runtimeSequence == before ==> old(runtimeSequence) == before
    {
      hide WriterValid, Steady;
      values := [];
      for i := 0 to count
        modifies `runtimeSequence, `cells, `inFlight, `pending, `work, `committed, `begun, `traffic
        invariant WriterValid() && Onward()
        invariant Steady(before, tx) && |values| == i && (runtimeSequence == before ==> values == tx[base..base + i])
        invariant runtimeSequence == before ==> old(runtimeSequence) == before
      {
        var value := LoadCell(base + i, before, tx);
        values := values + [value];
      }
    }

    method LoadSlot(device: nat, ghost before: nat, ghost tx: Memory)
      returns (enabled: bool, hidden: bool, generation: nat, payload: seq<nat>)
      requires WriterValid() && device < Slots && Steady(before, tx)
      modifies `runtimeSequence, `cells, `inFlight, `pending, `work, `committed, `begun, `traffic
      ensures WriterValid() && Onward() && Steady(before, tx)
      ensures runtimeSequence == before ==>
                var p := Project(defaults, tx, device);
                enabled == p.enabled && hidden == p.hidden && generation == p.generation && payload == p.payload
    {
      hide WriterValid, Steady;
      var at := Slot(device);
      var enabledCell := LoadCell(at, before, tx);
      var hiddenCell := LoadCell(at + 1, before, tx);
      generation := LoadCell(at + 2, before, tx);
      enabled, hidden, payload := enabledCell != 0, hiddenCell != 0, defaults.payload;
      if enabled {
        payload := LoadCells(at + 3, PayloadCells, before, tx);
      }
    }

    method LoadField(ghost device: nat, ghost before: nat, ghost tx: Memory)
      returns (enabled: bool, generation: nat, anchorCount: nat, sigma: nat, anchors: seq<nat>)
      requires WriterValid() && device < Slots && Steady(before, tx)
      modifies `runtimeSequence, `cells, `inFlight, `pending, `work, `committed, `begun, `traffic
      ensures WriterValid() && Onward() && Steady(before, tx)
      // Even a copy about to be discarded indexes only anchors that exist.
      ensures anchorCount <= MaxAnchors && |anchors| == anchorCount * AnchorCells
      ensures runtimeSequence == before ==>
                var p := Project(defaults, tx, device);
                && enabled == p.fieldEnabled && generation == p.fieldGeneration && anchorCount == p.anchorCount
                && sigma == p.sigma && anchors == p.anchors
    {
      hide WriterValid, Steady;
      var enabledCell := LoadCell(FieldBase, before, tx);
      enabled, generation, anchorCount, sigma, anchors := enabledCell != 0, 0, 0, defaults.sigma, [];
      if enabled {
        generation := LoadCell(FieldBase + 1, before, tx);
        anchorCount := LoadCell(FieldBase + 2, before, tx);
        sigma := LoadCell(FieldBase + 3, before, tx);
        for i := 0 to anchorCount
          modifies `runtimeSequence, `cells, `inFlight, `pending, `work, `committed, `begun, `traffic
          invariant WriterValid() && Onward() && Steady(before, tx)
          invariant |anchors| == i * AnchorCells
          invariant runtimeSequence == before ==>
                      && enabledCell == tx[FieldBase] && generation == tx[FieldBase + 1]
                      && anchorCount == tx[FieldBase + 2] && sigma == tx[FieldBase + 3]
                      && anchors == tx[AnchorBase(0)..AnchorBase(i)]
        {
          var anchor := LoadCells(AnchorBase(i), AnchorCells, before, tx);
          assert tx[AnchorBase(0)..AnchorBase(i + 1)] ==
                 tx[AnchorBase(0)..AnchorBase(i)] + tx[AnchorBase(i)..AnchorBase(i) + AnchorCells];
          anchors := anchors + anchor;
        }
      }
    }

    /** What the loads find is what one transaction left, unless the counter has moved on. */
    method Load(device: nat, ghost before: nat, ghost tx: Memory) returns (snapshot: Snapshot)
      requires WriterValid() && device < Slots && Steady(before, tx)
      modifies `runtimeSequence, `cells, `inFlight, `pending, `work, `committed, `begun, `traffic
      ensures WriterValid() && Onward()
      ensures Steady(before, tx) && (runtimeSequence == before ==> snapshot == Project(defaults, tx, device))
    {
      hide WriterValid, Project;
      var enabled, hidden, generation, payload := LoadSlot(device, before, tx);
      var fieldEnabled, fieldGeneration, anchorCount, sigma, anchors := LoadField(device, before, tx);
      snapshot := Snapshot(enabled, hidden, generation, payload,
                           fieldEnabled, fieldGeneration, anchorCount, sigma, anchors);
    }

    /** The counter tells how much is committed, and what memory holds while it is even. */
    lemma CounterTells()
      requires WriterValid()
      ensures committed != [] && (runtimeSequence % 2 == 1 <==> inFlight)
      ensures runtimeSequence == 2 * (|committed| - 1) + (if inFlight then 1 else 0)
      ensures runtimeSequence % 2 == 0 ==> Steady(runtimeSequence, committed[|committed| - 1])
    {
    }

    /**
     The copy returned is one transaction's, the device's and the field's together. A fresh copy
     is at least as new as the last transaction committed before the call; a fallback is the copy
     returned last time. So the transactions a device sees never go back.
     */
    method Read(device: nat) returns (snapshot: Snapshot)
      requires Valid() && device < Slots
      modifies `runtimeSequence, `cells, `inFlight, `pending, `work, `committed, `begun, `traffic, `lastGood, `shown
      ensures Valid() && old(committed) <= committed && begun + work == old(begun + work)
      ensures snapshot == Project(defaults, committed[shown[device]], device) && lastGood[device] == snapshot
      ensures old(shown[device]) <= shown[device]
      ensures shown[device] >= |old(committed)| - 1 || (shown == old(shown) && lastGood == old(lastGood))
      ensures forall d :: 0 <= d < Slots && d != device ==> shown[d] == old(shown[d]) && lastGood[d] == old(lastGood[d])
      // A call without a whole transaction in it reads what was committed before it, whatever else happens.
      ensures !old(inFlight) && runtimeSequence == old(runtimeSequence) ==>
                committed == old(committed) && shown[device] == |committed| - 1
      // A writer that falls quiet before the last attempt, between two transactions, is read.
      ensures |old(traffic)| < Attempts && !inFlight ==> shown[device] >= |old(committed)| - 1
    {
      hide Project, WriterValid, Steady;
      CounterTells();
      for attempt := 0 to Attempts
        modifies `runtimeSequence, `cells, `inFlight, `pending, `work, `committed, `begun, `traffic, `lastGood, `shown
        invariant WriterValid() && Onward()
        invariant lastGood == old(lastGood) && shown == old(shown)
        invariant attempt > 0 && runtimeSequence == old(runtimeSequence) ==> runtimeSequence % 2 == 1
        invariant attempt + |traffic| <= |old(traffic)| || traffic == []
        invariant attempt > |old(traffic)| ==> runtimeSequence % 2 == 1
      {
        Interfere();
        CounterTells();
        var before := runtimeSequence;
        if before % 2 == 0 {
          ghost var tx := committed[|committed| - 1];
          ghost var index := |committed| - 1;
          snapshot := Load(device, before, tx);
          Interfere();
          CounterTells();
          if runtimeSequence == before {
            lastGood := lastGood[device := snapshot];
            shown := shown[device := index];
            return;
          }
        }
      }
      CounterTells();
      snapshot := lastGood[device];
    }
  }
}
