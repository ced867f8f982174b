/**
  The ordering state machine that parameter lists and argument lists share.

  Each element of such a list falls in one of three slots, tested in this
  order by both post-append hooks: `Keyed` (a parameter with a default value,
  or a named argument), `Rest` (a rest parameter or rest argument that is not
  keyed), `Plain` (everything else). Two monotone flags record whether a keyed
  and whether a rest element has been appended. The hooks only mark, in
  comments, the appends that are illegal; `Check` names them, and `Accepted`
  says that no append of a list hit one.
 */
module Ordering {
  import opened Wrappers
  import opened Vectors

  datatype Slot = Plain | Keyed | Rest

  datatype OrderFlags = OrderFlags(hasKeyed: bool, hasRest: bool)

  const NoneSeen := OrderFlags(false, false)

  /** The literal flag update of the hooks: set the flag of the slot appended. */
  function Step(f: OrderFlags, s: Slot): (r: OrderFlags)
    ensures r.hasKeyed <==> f.hasKeyed || s == Keyed
    ensures r.hasRest <==> f.hasRest || s == Rest
  {
    match s
    case Keyed => f.(hasKeyed := true)
    case Rest => f.(hasRest := true)
    case Plain => f
  }

  /** The illegal appends the hooks mark. */
  datatype Violation =
    | AfterRest             // any append once a rest element is present
    | DuplicateRest         // a second rest element
    | RestAfterKeyed        // a rest element after a keyed one
    | PlainAfterKeyed       // a plain element after a keyed one

  /** The first illegal-append mark the hook reaches for `s` in state `f`, if any. */
  function Check(f: OrderFlags, s: Slot): (r: Option<Violation>)
    ensures r == None <==> !f.hasRest && (f.hasKeyed ==> s == Keyed)
    ensures r == Some(AfterRest) <==> f.hasRest && s != Rest
    ensures r == Some(DuplicateRest) <==> f.hasRest && s == Rest
    ensures r == Some(RestAfterKeyed) <==> !f.hasRest && f.hasKeyed && s == Rest
    ensures r == Some(PlainAfterKeyed) <==> !f.hasRest && f.hasKeyed && s == Plain
  {
    match s
    case Keyed => if f.hasRest then Some(AfterRest) else None
    case Rest =>
      if f.hasRest then Some(DuplicateRest)
      else if f.hasKeyed then Some(RestAfterKeyed)
      else None
    case Plain =>
      if f.hasRest then Some(AfterRest)
      else if f.hasKeyed then Some(PlainAfterKeyed)
      else None
  }

  /** The flags after appending `slots` to a fresh list. */
  function Flags(slots: seq<Slot>): OrderFlags
  {
    Replay(Step, NoneSeen, slots)
  }

  /** No append of `slots`, made one at a time to a fresh list, reaches an error mark. */
  predicate Accepted(slots: seq<Slot>)
  {
    forall i :: 0 <= i < |slots| ==> Check(Flags(slots[..i]), slots[i]) == None
  }

  /**
    The ordering rule stated on the list itself: nothing follows a rest
    element, and only keyed elements follow a keyed one. Equivalently the
    list is some plain elements, then either keyed elements only or a single
    rest element.
   */
  predicate WellOrdered(slots: seq<Slot>)
  {
    forall i, j :: 0 <= i < j < |slots| ==> slots[i] != Rest && (slots[i] == Keyed ==> slots[j] == Keyed)
  }

  /** A flag is set exactly when its slot occurs, and once set stays set. */
  lemma {:induction false} StepFlags(f: OrderFlags, slots: seq<Slot>)
    ensures Replay(Step, f, slots).hasKeyed <==> f.hasKeyed || Keyed in slots
    ensures Replay(Step, f, slots).hasRest <==> f.hasRest || Rest in slots
    decreases |slots|
  {
    if slots != [] {
      StepFlags(Step(f, slots[0]), slots[1..]);
      assert slots == [slots[0]] + slots[1..];
    }
  }

  /** The flags of a list built from scratch record exactly which slots occur in it. */
  lemma FlagsRecordSlots(slots: seq<Slot>)
    ensures Flags(slots).hasKeyed <==> Keyed in slots
    ensures Flags(slots).hasRest <==> Rest in slots
  {
    StepFlags(NoneSeen, slots);
  }

  /** An append is unmarked exactly when it keeps the list well ordered. */
  lemma CheckIffExtends(slots: seq<Slot>, s: Slot)
    requires WellOrdered(slots)
    ensures Check(Flags(slots), s) == None <==> WellOrdered(slots + [s])
  {
    FlagsRecordSlots(slots);
    var t := slots + [s];
    if Check(Flags(slots), s) == None {
      forall i, j | 0 <= i < j < |t| ensures t[i] != Rest && (t[i] == Keyed ==> t[j] == Keyed) {
        assert t[i] == slots[i];
        if j < |slots| {
          assert t[j] == slots[j];
        }
      }
    } else if Rest in slots {
      var i :| 0 <= i < |slots| && slots[i] == Rest;
      assert t[i] == Rest && t[|slots|] == s;
    } else {
      var i :| 0 <= i < |slots| && slots[i] == Keyed;
      assert t[i] == Keyed && t[|slots|] == s;
    }
  }

  /** The hook-by-hook error marks and the ordering rule agree on every list. */
  lemma {:induction false} AcceptedIffWellOrdered(slots: seq<Slot>)
    ensures Accepted(slots) <==> WellOrdered(slots)
    decreases |slots|
  {
    if slots != [] {
      var n := |slots| - 1;
      var init, last := slots[..n], slots[n];
      assert slots == init + [last];
      AcceptedIffWellOrdered(init);
      assert forall i :: 0 <= i < n ==> slots[..i] == init[..i] && slots[i] == init[i];
      assert Accepted(slots) <==> Accepted(init) && Check(Flags(init), last) == None;
      if WellOrdered(slots) {
        forall i, j | 0 <= i < j < |init| ensures init[i] != Rest && (init[i] == Keyed ==> init[j] == Keyed) {
          assert init[i] == slots[i] && init[j] == slots[j];
        }
      }
      if WellOrdered(init) {
        CheckIffExtends(init, last);
      }
    }
  }
}
