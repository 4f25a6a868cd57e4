/**
 * The dispensing screen: the confirmed cart is expanded into one unit per
 * item, every unit gets an initial status, a cursor moves one unit per dwell
 * tick (the 3-second timer is an event), and each line shows a status
 * projected from its units' statuses.
 *
 * Statuses are keyed by `${id}-${unitIndex}`, modelled as the pair
 * `UnitKey(id, unitIndex)`; two lines with the same id therefore share keys.
 */
module Dispensing {
  import opened Common

  datatype UnitKey = UnitKey(id: int, unitIndex: int)

  /** One item to dispense: the line it came from, its index within the line and its status key. */
  datatype DispenseUnit = DispenseUnit(line: DispenseLine, unitIndex: nat, key: UnitKey)

  datatype Status = Pending | Failed | Dispensing

  /** A line is expanded unless its id is falsy or its quantity is missing or below one. */
  predicate ValidLine(line: DispenseLine)
  {
    line.id != 0 && line.quantity >= 1
  }

  predicate WellFormedUnit(u: DispenseUnit)
  {
    ValidLine(u.line) && u.unitIndex < u.line.quantity && u.key == UnitKey(u.line.id, u.unitIndex)
  }

  /** The units of one line, in unit-index order. */
  function LineUnits(line: DispenseLine): seq<DispenseUnit>
  {
    if ValidLine(line) then
      seq(line.quantity, i requires 0 <= i < line.quantity => DispenseUnit(line, i, UnitKey(line.id, i)))
    else []
  }

  /** The sum of the quantities of the valid lines. */
  function UnitCount(cart: seq<DispenseLine>): nat
    decreases |cart|
  {
    if cart == [] then 0
    else (if ValidLine(cart[0]) then cart[0].quantity else 0) + UnitCount(cart[1..])
  }

  /** The expansion: the units of the valid lines, in line order. */
  function Units(cart: seq<DispenseLine>): (r: seq<DispenseUnit>)
    ensures |r| == UnitCount(cart)
    ensures forall j :: 0 <= j < |r| ==> WellFormedUnit(r[j])
    decreases |cart|
  {
    if cart == [] then [] else LineUnits(cart[0]) + Units(cart[1..])
  }

  /** Expanding one more line appends that line's units. */
  lemma {:induction false} UnitsSnoc(cart: seq<DispenseLine>, line: DispenseLine)
    ensures Units(cart + [line]) == Units(cart) + LineUnits(line)
    decreases |cart|
  {
    if cart == [] {
      assert ([] + [line])[1..] == [];
    } else {
      assert (cart + [line])[1..] == cart[1..] + [line];
      UnitsSnoc(cart[1..], line);
    }
  }

  /** Every unit comes from a line of the cart: `m` is the index of that line. */
  lemma {:induction false} UnitOrigin(cart: seq<DispenseLine>, j: nat) returns (m: nat)
    requires j < |Units(cart)|
    ensures m < |cart| && cart[m] == Units(cart)[j].line
    decreases |cart|
  {
    var head := LineUnits(cart[0]);
    if j < |head| {
      m := 0;
    } else {
      assert Units(cart)[j] == Units(cart[1..])[j - |head|];
      var m' := UnitOrigin(cart[1..], j - |head|);
      m := m' + 1;
    }
  }

  /**
   * The expansion loop: for each line, skip it when invalid, otherwise push
   * its units with indices 0 to quantity - 1.
   */
  method ExpandUnits(cart: seq<DispenseLine>) returns (units: seq<DispenseUnit>)
    ensures units == Units(cart)
  {
    units := [];
    var k := 0;
    while k < |cart|
      invariant 0 <= k <= |cart|
      invariant units == Units(cart[..k])
    {
      var item := cart[k];
      if item.id != 0 && item.quantity >= 1 {
        var i := 0;
        while i < item.quantity
          invariant 0 <= i <= item.quantity
          invariant units == Units(cart[..k]) + LineUnits(item)[..i]
        {
          units := units + [DispenseUnit(item, i, UnitKey(item.id, i))];
          i := i + 1;
        }
        assert LineUnits(item)[..i] == LineUnits(item);
      }
      assert cart[..k + 1] == cart[..k] + [item];
      UnitsSnoc(cart[..k], item);
      k := k + 1;
    }
    assert cart[..|cart|] == cart;
  }

  /** Unit `i` of line `k` sits at the sum of the earlier valid quantities plus `i`: line order, then unit-index order. */
  lemma {:induction false} UnitPosition(cart: seq<DispenseLine>, k: nat, i: nat)
    requires k < |cart| && ValidLine(cart[k]) && i < cart[k].quantity
    ensures UnitCount(cart[..k]) + i < |Units(cart)|
    ensures Units(cart)[UnitCount(cart[..k]) + i] == DispenseUnit(cart[k], i, UnitKey(cart[k].id, i))
    decreases k
  {
    if k == 0 {
      assert cart[..0] == [];
    } else {
      UnitPosition(cart[1..], k - 1, i);
      assert cart[..k][0] == cart[0] && cart[..k][1..] == cart[1..][..k - 1];
    }
  }

  /** Valid lines carry pairwise distinct ids. */
  predicate DistinctValidIds(cart: seq<DispenseLine>)
  {
    forall a, b :: 0 <= a < b < |cart| && ValidLine(cart[a]) && ValidLine(cart[b]) ==> cart[a].id != cart[b].id
  }

  predicate DistinctKeys(units: seq<DispenseUnit>)
  {
    forall a, b :: 0 <= a < b < |units| ==> units[a].key != units[b].key
  }

  /** With distinct ids the status keys are distinct too. */
  lemma {:induction false} DistinctIdsDistinctKeys(cart: seq<DispenseLine>)
    requires DistinctValidIds(cart)
    ensures DistinctKeys(Units(cart))
    decreases |cart|
  {
    if cart != [] {
      var head := LineUnits(cart[0]);
      var rest := Units(cart[1..]);
      assert DistinctValidIds(cart[1..]) by {
        forall a, b | 0 <= a < b < |cart[1..]| && ValidLine(cart[1..][a]) && ValidLine(cart[1..][b])
          ensures cart[1..][a].id != cart[1..][b].id
        {
          assert cart[1..][a] == cart[a + 1] && cart[1..][b] == cart[b + 1];
        }
      }
      DistinctIdsDistinctKeys(cart[1..]);
      var all := Units(cart);
      forall a, b | 0 <= a < b < |all| ensures all[a].key != all[b].key {
        if a < |head| && b >= |head| {
          var m := UnitOrigin(cart[1..], b - |head|);
          assert all[b] == rest[b - |head|];
          assert cart[m + 1] == rest[b - |head|].line;
        } else if a >= |head| {
          assert all[a] == rest[a - |head|] && all[b] == rest[b - |head|];
        }
      }
    }
  }

  function InitialStatus(u: DispenseUnit): Status
  {
    if u.line.failed then Failed else Pending
  }

  function KeysOf(units: seq<DispenseUnit>): set<UnitKey>
  {
    set j | 0 <= j < |units| :: units[j].key
  }

  /** No later unit shares the key of unit `j`. */
  predicate LastWithKey(units: seq<DispenseUnit>, j: nat)
  {
    forall b :: j < b < |units| ==> units[b].key != units[j].key
  }

  /** The keys of a sequence of units are those of all but the last unit, plus the last unit's. */
  lemma {:induction false} KeysOfSnoc(units: seq<DispenseUnit>)
    requires units != []
    ensures KeysOf(units) == KeysOf(units[..|units| - 1]) + {units[|units| - 1].key}
  {
    var n := |units| - 1;
    forall key | key in KeysOf(units) ensures key in KeysOf(units[..n]) + {units[n].key} {
      var j :| 0 <= j < |units| && units[j].key == key;
      if j < n { assert units[..n][j] == units[j]; }
    }
    forall key | key in KeysOf(units[..n]) ensures key in KeysOf(units) {
      var j :| 0 <= j < n && units[..n][j].key == key;
      assert units[j] == units[..n][j];
    }
  }

  /**
   * The seeding reduce: each unit's key gets `Failed` if the unit is flagged
   * failed and `Pending` otherwise; on a shared key the later unit wins.
   */
  function Seed(units: seq<DispenseUnit>): (m: map<UnitKey, Status>)
    ensures m.Keys == KeysOf(units)
    decreases |units|
  {
    if units == [] then map[]
    else
      var n := |units| - 1;
      KeysOfSnoc(units);
      Seed(units[..n])[units[n].key := InitialStatus(units[n])]
  }

  /** A unit that no later unit shares its key with is seeded from its own `failed` flag. */
  lemma {:induction false} SeedStatus(units: seq<DispenseUnit>, j: nat)
    requires j < |units| && LastWithKey(units, j)
    ensures Seed(units)[units[j].key] == InitialStatus(units[j])
    decreases |units|
  {
    var n := |units| - 1;
    if j < n {
      assert units[..n][j] == units[j];
      assert LastWithKey(units[..n], j);
      SeedStatus(units[..n], j);
    }
  }

  /** The per-line status the table shows: a missing status counts as pending. */
  function StatusOf(statuses: map<UnitKey, Status>, key: UnitKey): Status
  {
    if key in statuses then statuses[key] else Pending
  }

  function UnitStatuses(line: DispenseLine, statuses: map<UnitKey, Status>): seq<Status>
  {
    var count := if line.quantity > 0 then line.quantity else 0;
    seq(count, i requires 0 <= i < count => StatusOf(statuses, UnitKey(line.id, i)))
  }

  /**
   * `Dispensing` if any unit of the line is dispensing, else `Failed` if all
   * of them failed (vacuously so for a line without units), else `Pending`.
   */
  function Display(line: DispenseLine, statuses: map<UnitKey, Status>): (r: Status)
    ensures r == Dispensing <==> exists i :: 0 <= i < line.quantity && StatusOf(statuses, UnitKey(line.id, i)) == Dispensing
    ensures r == Failed <==> forall i :: 0 <= i < line.quantity ==> StatusOf(statuses, UnitKey(line.id, i)) == Failed
    ensures r == Pending <==>
      && (forall i :: 0 <= i < line.quantity ==> StatusOf(statuses, UnitKey(line.id, i)) != Dispensing)
      && (exists i :: 0 <= i < line.quantity && StatusOf(statuses, UnitKey(line.id, i)) == Pending)
  {
    var us := UnitStatuses(line, statuses);
    assert forall i :: 0 <= i < line.quantity ==> us[i] == StatusOf(statuses, UnitKey(line.id, i));
    if Dispensing in us then Dispensing
    else if forall k :: 0 <= k < |us| ==> us[k] == Failed then Failed
    else Pending
  }

  /**
   * The screen's state: the units, the status map, the cursor, whether the
   * units were set up, whether the dwell timer is set and whether the screen
   * navigated home.
   */
  datatype Screen = Screen(
    units: seq<DispenseUnit>,
    statuses: map<UnitKey, Status>,
    cursor: nat,
    initialized: bool,
    timerArmed: bool,
    redirected: bool)

  const Blank := Screen([], map[], 0, false, false, false)

  /** The status unit `j` must have once the cursor is at `cursor`. */
  function Expected(u: DispenseUnit, j: nat, cursor: nat): Status
  {
    if u.line.failed then Failed else if j <= cursor then Dispensing else Pending
  }

  /** Some unit up to the cursor, not flagged failed, carries this key: the cursor effect has marked the key dispensing. */
  ghost predicate MarkedUpTo(units: seq<DispenseUnit>, cursor: nat, key: UnitKey)
  {
    exists j :: 0 <= j < |units| && j <= cursor && !units[j].line.failed && units[j].key == key
  }

  /** Moving the cursor on by one adds at most the key of the unit it lands on. */
  lemma {:induction false} MarkedStep(units: seq<DispenseUnit>, c: nat, key: UnitKey)
    requires c >= 1
    ensures MarkedUpTo(units, c, key) <==>
      MarkedUpTo(units, c - 1, key) || (c < |units| && !units[c].line.failed && units[c].key == key)
  {
    if MarkedUpTo(units, c, key) && !MarkedUpTo(units, c - 1, key) {
      var j :| 0 <= j < |units| && j <= c && !units[j].line.failed && units[j].key == key;
      assert j == c;
    }
  }

  /**
   * The run invariant of an initialized screen. Whatever the keys, a key is
   * `Dispensing` once a non-failed unit carrying it has been reached, and
   * keeps its seeded status until then; with distinct keys this gives each
   * unit's own expected status.
   */
  ghost predicate Progress(s: Screen)
  {
    && s.initialized && |s.units| > 0
    && s.cursor <= |s.units|
    && (s.timerArmed <==> s.cursor < |s.units|)
    && (s.redirected <==> s.cursor == |s.units|)
    && s.statuses.Keys == KeysOf(s.units)
    && (forall key :: key in s.statuses ==>
          s.statuses[key] == if MarkedUpTo(s.units, s.cursor, key) then Dispensing else Seed(s.units)[key])
    && (DistinctKeys(s.units) ==>
          forall j :: 0 <= j < |s.units| ==> s.statuses[s.units[j].key] == Expected(s.units[j], j, s.cursor))
  }

  /**
   * The cursor effect: nothing before initialization; at the end, navigate
   * home; otherwise mark the unit at the cursor dispensing unless it failed,
   * and set the dwell timer.
   */
  function Advanced(s: Screen): Screen
  {
    if !s.initialized || |s.units| == 0 then s
    else if s.cursor >= |s.units| then s.(redirected := true)
    else
      var u := s.units[s.cursor];
      var marked := if !u.line.failed then s.statuses[u.key := Dispensing] else s.statuses;
      s.(statuses := marked, timerArmed := true)
  }

  /**
   * Mounting with the cart the checkout navigated with. A missing navigation
   * state yields the empty cart. A navigation state without a cart (`None`)
   * makes the first render fail on `cart.length` before any effect runs: the
   * screen stays blank, never set up and never navigating. An empty cart, or
   * one without valid units, navigates home with no status set; otherwise the
   * units are expanded, seeded, and the first unit processed.
   */
  function Mounted(cart: Option<seq<DispenseLine>>): (s: Screen)
    ensures cart.None? ==>
      !s.redirected && !s.initialized && !s.timerArmed && s.statuses == map[] && s.units == []
    ensures cart.Some? && UnitCount(cart.value) == 0 ==>
      s.redirected && !s.initialized && !s.timerArmed && s.statuses == map[]
    ensures cart.Some? && UnitCount(cart.value) > 0 ==>
      Progress(s) && s.units == Units(cart.value) && s.cursor == 0
  {
    if cart.None? then Blank
    else if |cart.value| == 0 then Blank.(redirected := true)
    else
      var units := Units(cart.value);
      if |units| == 0 then Blank.(redirected := true)
      else
        MountProgress(units);
        Advanced(Blank.(units := units, statuses := Seed(units), initialized := true))
  }

  lemma {:induction false} MountProgress(units: seq<DispenseUnit>)
    requires |units| > 0
    ensures Progress(Advanced(Blank.(units := units, statuses := Seed(units), initialized := true)))
  {
    var seeded := Blank.(units := units, statuses := Seed(units), initialized := true);
    var r := Advanced(seeded);
    assert units[0].key in KeysOf(units);
    forall key | key in r.statuses
      ensures r.statuses[key] == if MarkedUpTo(units, 0, key) then Dispensing else Seed(units)[key]
    {
      if MarkedUpTo(units, 0, key) {
        var j :| 0 <= j < |units| && j <= 0 && !units[j].line.failed && units[j].key == key;
      } else if !units[0].line.failed {
        assert units[0].key != key;
      }
    }
    if DistinctKeys(units) {
      forall j | 0 <= j < |units| ensures r.statuses[units[j].key] == Expected(units[j], j, 0) {
        SeedStatus(units, j);
        if j != 0 {
          assert units[j].key != units[0].key;
        }
      }
    }
  }

  /** The dwell timer fires: the cursor moves on by one and the effect runs again. */
  function Ticked(s: Screen): (r: Screen)
    requires Progress(s)
    ensures Progress(r) && r.units == s.units
    ensures s.cursor < |s.units| ==> r.cursor == s.cursor + 1
    ensures s.cursor == |s.units| ==> r == s
  {
    TickKeepsProgress(s);
    if s.timerArmed then Advanced(s.(cursor := s.cursor + 1, timerArmed := false)) else s
  }

  lemma {:induction false} TickKeepsProgress(s: Screen)
    requires Progress(s)
    ensures s.timerArmed ==> Progress(Advanced(s.(cursor := s.cursor + 1, timerArmed := false)))
  {
    if s.timerArmed {
      var moved := s.(cursor := s.cursor + 1, timerArmed := false);
      var r := Advanced(moved);
      var c := moved.cursor;
      if c < |s.units| {
        assert KeysOf(s.units) == KeysOf(s.units) + {s.units[c].key};
      }
      forall key | key in r.statuses
        ensures r.statuses[key] == if MarkedUpTo(s.units, c, key) then Dispensing else Seed(s.units)[key]
      {
        MarkedStep(s.units, c, key);
      }
      if DistinctKeys(s.units) {
        forall j | 0 <= j < |s.units| ensures r.statuses[s.units[j].key] == Expected(s.units[j], j, c) {
          if j != c && c < |s.units| {
            assert s.units[j].key != s.units[c].key;
          }
        }
      }
    }
  }

  /** `k` dwell ticks in a row. */
  function TickedTimes(s: Screen, k: nat): Screen
    requires Progress(s)
    decreases k
  {
    if k == 0 then s else TickedTimes(Ticked(s), k - 1)
  }

  /** After `k` ticks the cursor has moved `k` units, stopping at the end, where the screen has navigated home. */
  lemma {:induction false} TicksMoveCursor(s: Screen, k: nat)
    requires Progress(s)
    ensures var r := TickedTimes(s, k);
      && Progress(r) && r.units == s.units
      && r.cursor == (if s.cursor + k <= |s.units| then s.cursor + k else |s.units|)
      && (r.redirected <==> s.cursor + k >= |s.units|)
    decreases k
  {
    if k > 0 {
      TicksMoveCursor(Ticked(s), k - 1);
    }
  }

  /** Whatever the keys, the key of a non-failed unit at or before the cursor shows `Dispensing`. */
  lemma {:induction false} ReachedKeyDispensing(s: Screen, j: nat)
    requires Progress(s)
    requires j < |s.units| && j <= s.cursor && !s.units[j].line.failed
    ensures s.statuses[s.units[j].key] == Dispensing
  {
    assert s.units[j].key in KeysOf(s.units);
    assert MarkedUpTo(s.units, s.cursor, s.units[j].key);
  }

  /** A unit flagged failed is never marked dispensing, as long as keys are distinct. */
  lemma {:induction false} FailedNeverDispensing(s: Screen, j: nat)
    requires Progress(s) && DistinctKeys(s.units)
    requires j < |s.units| && s.units[j].line.failed
    ensures s.statuses[s.units[j].key] == Failed
  {
  }

  /**
   * When the run has gone through every unit, a valid line shows `Failed` if
   * it was flagged failed and `Dispensing` otherwise: nothing is ever marked
   * completed.
   */
  lemma {:induction false} FinalDisplay(cart: seq<DispenseLine>, s: Screen, k: nat)
    requires Progress(s) && s.units == Units(cart) && DistinctValidIds(cart)
    requires s.cursor == |s.units|
    requires k < |cart| && ValidLine(cart[k])
    ensures Display(cart[k], s.statuses) == if cart[k].failed then Failed else Dispensing
  {
    DistinctIdsDistinctKeys(cart);
    var line := cart[k];
    var offset := UnitCount(cart[..k]);
    forall i | 0 <= i < line.quantity
      ensures StatusOf(s.statuses, UnitKey(line.id, i)) == if line.failed then Failed else Dispensing
    {
      UnitPosition(cart, k, i);
      assert s.units[offset + i].key == UnitKey(line.id, i);
    }
    if !line.failed {
      assert StatusOf(s.statuses, UnitKey(line.id, 0)) == Dispensing;
    }
  }

  /**
   * Two lines with the same id share their status keys: after one tick the
   * second line's unit is dispensing, and the first line, flagged failed,
   * shows `Dispensing` too.
   */
  lemma {:induction false} SharedIdsShareStatus()
    ensures var cart := [DispenseLine(1, "a", 1, true), DispenseLine(1, "b", 1, false)];
      var s := Mounted(Some(cart));
      && Progress(s)
      && Display(cart[0], Ticked(s).statuses) == Dispensing
  {
    var cart := [DispenseLine(1, "a", 1, true), DispenseLine(1, "b", 1, false)];
    assert cart[..1] == [cart[0]] && [cart[0]][..0] == [];
    assert UnitCount(cart) == 2;
    var units := Units(cart);
    assert units == [DispenseUnit(cart[0], 0, UnitKey(1, 0)), DispenseUnit(cart[1], 0, UnitKey(1, 0))] by {
      assert Units(cart[..1]) == LineUnits(cart[0]);
    }
    var s := Mounted(Some(cart));
    assert Ticked(s).statuses[UnitKey(1, 0)] == Dispensing;
    assert StatusOf(Ticked(s).statuses, UnitKey(1, 0)) == Dispensing;
  }

  /** The dispensing screen's handlers, updating its state in place. */
  class DispensingScreen {
    var units: seq<DispenseUnit>
    var statuses: map<UnitKey, Status>
    var cursor: nat
    var initialized: bool
    var timerArmed: bool
    var redirected: bool

    function State(): Screen
      reads this
    {
      Screen(units, statuses, cursor, initialized, timerArmed, redirected)
    }

    /** Mount: the render (which fails on a missing cart), the set-up effect, then the cursor effect. */
    constructor (cart: Option<seq<DispenseLine>>)
      ensures State() == Mounted(cart)
    {
      units, statuses, cursor := [], map[], 0;
      initialized, timerArmed, redirected := false, false, false;
      new;
      if cart.None? {
        return;
      }
      if |cart.value| == 0 {
        redirected := true;
        return;
      }
      var expanded := ExpandUnits(cart.value);
      if |expanded| == 0 {
        redirected := true;
        return;
      }
      units := expanded;
      statuses := Seed(expanded);
      initialized := true;
      RunEffect();
    }

    method RunEffect()
      modifies this
      ensures State() == Advanced(old(State()))
    {
      if !initialized || |units| == 0 {
        return;
      }
      if cursor >= |units| {
        redirected := true;
        return;
      }
      if !units[cursor].line.failed {
        statuses := statuses[units[cursor].key := Dispensing];
      }
      timerArmed := true;
    }

    /** The dwell timer's callback, if the timer is still set. */
    method OnTimer()
      requires Progress(State())
      modifies this
      ensures State() == Ticked(old(State()))
    {
      if timerArmed {
        cursor := cursor + 1;
        timerArmed := false;
        RunEffect();
      }
    }

    /** Unmount: the effect cleanup clears the dwell timer. */
    method Unmount()
      modifies this
      ensures State() == old(State()).(timerArmed := false)
    {
      timerArmed := false;
    }
  }
}
