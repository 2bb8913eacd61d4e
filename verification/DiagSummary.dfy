/**
  The alarm specifier and the maintenance status of a sub-slot, summarised over its diagnosis
  items (section 7.3.1.6.5.1 of the PROFINET services specification, version 2.4).

  A 32-bit word is modelled as the set of its bits that are 1: `|` is union, `&` intersection.
*/
module DiagSummary {
  import opened Wrappers

  type Word = w: set<nat> | forall b :: b in w ==> b < 32 witness {}

  const USI_CHANNEL_DIAGNOSIS := 0x8000

  /** A diagnosis item; `qualifier` and `chProperties` belong to the standard format only.
      `next` is the array index of the next item, out of range at the end of a list. */
  datatype DiagItem = DiagItem(usi: nat, qualifier: Word, chProperties: nat, next: nat)

  datatype AlarmSpec = AlarmSpec(channel: bool, manufacturer: bool, submodule: bool, ar: bool)

  const NO_SPEC := AlarmSpec(false, false, false, false)

  const ALL_BITS: Word := {0, 1, 2, 3, 4, 5, 6, 7, 8, 9, 10, 11, 12, 13, 14, 15,
                           16, 17, 18, 19, 20, 21, 22, 23, 24, 25, 26, 27, 28, 29, 30, 31}

  function BitRange(lo: nat, hi: nat): Word
    requires hi < 32
  {
    set b | b in ALL_BITS && lo <= b <= hi
  }

  const SEVERITY_MASK := BitRange(3, 31) // ~0x00000007
  const FAULT_MASK := BitRange(27, 31) // 0xf8000000
  const DEMANDED_MASK := BitRange(17, 26) // 0x07fe0000
  const REQUIRED_MASK := BitRange(7, 16) // 0x0001ff80
  function Power(b: nat): nat {
    if b == 0 then 1 else 2 * Power(b - 1)
  }

  /** The value of the bits below `n` of a word. */
  function Value(w: Word, n: nat): nat {
    if n == 0 then 0 else Value(w, n - 1) + (if n - 1 in w then Power(n - 1) else 0)
  }

  /** A range of bits is the difference of two powers of 2. */
  lemma {:induction false} RangeValue(w: Word, lo: nat, hi: nat, n: nat)
    requires lo <= hi && forall b: nat :: b < n ==> (b in w <==> lo <= b <= hi)
    ensures Value(w, n) + (if n <= lo then 0 else Power(lo))
            == if n <= lo then 0 else Power(if n <= hi then n else hi + 1)
    decreases n
  {
    if n > 0 { RangeValue(w, lo, hi, n - 1); }
  }

  lemma PowerAdds(a: nat, b: nat)
    ensures Power(a + b) == Power(a) * Power(b)
    decreases b
  {
    if b > 0 { PowerAdds(a, b - 1); }
  }

  lemma Powers()
    ensures Power(3) == 8 && Power(7) == 0x80 && Power(17) == 0x2_0000 && Power(27) == 0x800_0000
    ensures Power(32) == 0x1_0000_0000
    ensures Power(9) == 0x200 && Power(10) == 0x400 && Power(11) == 0x800 && Power(12) == 0x1000
  {
    assert Power(4) == 2 * Power(3) && Power(6) == 2 * Power(5);
    PowerAdds(7, 7);
    PowerAdds(14, 3);
    PowerAdds(17, 7);
    PowerAdds(24, 3);
    PowerAdds(27, 3);
    PowerAdds(30, 2);
  }

  /** The masks have the values of the C code, share no bit, and make up the severity bits from 7 on. */
  lemma MaskValues()
    ensures Value(SEVERITY_MASK, 32) == 0xffff_fff8 && Value(FAULT_MASK, 32) == 0xf800_0000
    ensures Value(DEMANDED_MASK, 32) == 0x07fe_0000 && Value(REQUIRED_MASK, 32) == 0x0001_ff80
    ensures FAULT_MASK !! DEMANDED_MASK !! REQUIRED_MASK
    ensures FAULT_MASK + DEMANDED_MASK + REQUIRED_MASK == SEVERITY_MASK - {3, 4, 5, 6}
  {
    Powers();
    RangeValue(SEVERITY_MASK, 3, 31, 32);
    RangeValue(FAULT_MASK, 27, 31, 32);
    RangeValue(DEMANDED_MASK, 17, 26, 32);
    RangeValue(REQUIRED_MASK, 7, 16, 32);
  }

  const BIT_REQUIRED: nat := 0
  const BIT_DEMANDED: nat := 1

  const MAINT_FAULT := 0
  const MAINT_REQUIRED := 1
  const MAINT_DEMANDED := 2
  const MAINT_QUALIFIED := 3
  const SPEC_APPEARS := 1

  /** Bits 9 and 10 of the channel properties. */
  function MaintField(chProperties: nat): nat { chProperties / 0x200 % 4 }

  /** Bits 11 and 12 of the channel properties. */
  function SpecField(chProperties: nat): nat { chProperties / 0x800 % 4 }

  // ------------------------------------------------------ what an item means

  predicate Standard(item: DiagItem) {
    item.usi >= USI_CHANNEL_DIAGNOSIS
  }

  /** The item has the severity `level`, directly or through a qualifier bit in `mask`. */
  predicate HasSeverity(item: DiagItem, level: nat, mask: Word) {
    Standard(item) && (MaintField(item.chProperties) == level
                       || (MaintField(item.chProperties) == MAINT_QUALIFIED && item.qualifier * mask != {}))
  }

  predicate Fault(item: DiagItem) { HasSeverity(item, MAINT_FAULT, FAULT_MASK) }
  predicate Demanded(item: DiagItem) { HasSeverity(item, MAINT_DEMANDED, DEMANDED_MASK) }
  predicate Required(item: DiagItem) { HasSeverity(item, MAINT_REQUIRED, REQUIRED_MASK) }

  predicate Appears(item: DiagItem) {
    Standard(item) && SpecField(item.chProperties) == SPEC_APPEARS
  }

  /** The item makes the whole submodule faulty; the manufacturer format always does. */
  predicate FaultsSubmodule(item: DiagItem) {
    !Standard(item) || (Appears(item) && Fault(item))
  }

  /** Bit `b` of the maintenance status is due to `item`. */
  predicate SetsBit(item: DiagItem, b: nat) {
    Standard(item) && (if b == BIT_REQUIRED then Required(item)
                       else if b == BIT_DEMANDED then Demanded(item)
                       else 3 <= b && b in item.qualifier)
  }

  /** Bit `k` of a number. */
  function Bit(n: nat, k: nat): nat
    requires Power(k) > 0
  {
    n / Power(k) % 2
  }

  /** Some bit of the qualifier in a range is 1. */
  predicate Qualifies(item: DiagItem, lo: nat, hi: nat) {
    exists b :: lo <= b <= hi && b in item.qualifier
  }

  /** The severities and the appearance on the single bits of an item. */
  lemma OnTheBits(item: DiagItem)
    ensures Power(9) > 0 && Power(10) > 0 && Power(11) > 0 && Power(12) > 0
    ensures var p := item.chProperties; var level := (Bit(p, 10), Bit(p, 9)); var spec := (Bit(p, 12), Bit(p, 11));
            var standard := item.usi >= 0x8000;
            && (Fault(item) <==> standard && (level == (0, 0) || (level == (1, 1) && Qualifies(item, 27, 31))))
            && (Demanded(item) <==> standard && (level == (1, 0) || (level == (1, 1) && Qualifies(item, 17, 26))))
            && (Required(item) <==> standard && (level == (0, 1) || (level == (1, 1) && Qualifies(item, 7, 16))))
            && (Appears(item) <==> standard && spec == (0, 1))
  {
    Powers();
    var p := item.chProperties;
    TwoBits(p / 0x200);
    TwoBits(p / 0x800);
    assert p / 0x400 == p / 0x200 / 2 && p / 0x1000 == p / 0x800 / 2;
    InMask(item, 27, 31);
    InMask(item, 17, 26);
    InMask(item, 7, 16);
  }

  lemma TwoBits(n: nat)
    ensures n % 4 == 2 * (n / 2 % 2) + n % 2
  {
  }

  lemma InMask(item: DiagItem, lo: nat, hi: nat)
    requires lo <= hi < 32
    ensures item.qualifier * BitRange(lo, hi) != {} <==> Qualifies(item, lo, hi)
  {
    if Qualifies(item, lo, hi) {
      var b :| lo <= b <= hi && b in item.qualifier;
      assert b in item.qualifier * BitRange(lo, hi);
    }
    if item.qualifier * BitRange(lo, hi) != {} {
      var b :| b in item.qualifier * BitRange(lo, hi);
      assert b in item.qualifier;
    }
  }

  // -------------------------------------------------- what a summary means

  /** Each flag and each bit holds exactly when some item calls for it. */
  ghost predicate Summarises(sameAr: bool, items: seq<DiagItem>, spec: AlarmSpec, maint: Word) {
    && (spec.channel <==> exists item :: item in items && Appears(item))
    && (spec.manufacturer <==> exists item :: item in items && !Standard(item))
    && (spec.submodule <==> exists item :: item in items && FaultsSubmodule(item))
    && (spec.ar <==> sameAr && exists item :: item in items && FaultsSubmodule(item))
    && (forall b: nat :: b in maint <==> exists item :: item in items && SetsBit(item, b))
  }

  /** The summary does not depend on the order or repetition of the items. */
  lemma OrderIndependent(sameAr: bool, items1: seq<DiagItem>, spec1: AlarmSpec, maint1: Word,
                         items2: seq<DiagItem>, spec2: AlarmSpec, maint2: Word)
    requires Summarises(sameAr, items1, spec1, maint1) && Summarises(sameAr, items2, spec2, maint2)
    requires forall item :: item in items1 <==> item in items2
    ensures spec1 == spec2 && maint1 == maint2
  {
    hide Appears, FaultsSubmodule, Standard, SetsBit;
    forall b: nat ensures b in maint1 <==> b in maint2 {
      if b in maint1 { var item :| item in items1 && SetsBit(item, b); assert item in items2; }
      if b in maint2 { var item :| item in items2 && SetsBit(item, b); assert item in items1; }
    }
  }

  /** A diagnosis of the AR is one of the submodule, and that is one of a channel or of the manufacturer. */
  lemma SpecifierHierarchy(sameAr: bool, items: seq<DiagItem>, spec: AlarmSpec, maint: Word)
    requires Summarises(sameAr, items, spec, maint)
    ensures spec.ar ==> spec.submodule
    ensures spec.submodule ==> spec.channel || spec.manufacturer
    ensures spec.manufacturer ==> spec.submodule
    ensures spec.ar <==> sameAr && spec.submodule
    ensures 2 !in maint
  {
    if spec.submodule {
      var item :| item in items && FaultsSubmodule(item);
      assert Standard(item) ==> Appears(item);
    }
    if spec.manufacturer {
      var item :| item in items && !Standard(item);
      assert FaultsSubmodule(item);
    }
  }

  // ------------------------------------------------------------ the C functions

  /** The flags with those of one more item. */
  function Extended(sameAr: bool, spec: AlarmSpec, item: DiagItem): AlarmSpec {
    AlarmSpec(spec.channel || Appears(item), spec.manufacturer || !Standard(item),
              spec.submodule || FaultsSubmodule(item), spec.ar || (sameAr && FaultsSubmodule(item)))
  }

  /** The C code's test for one severity, on the already masked qualifier. */
  method TestSeverity(item: DiagItem, severity: Word, level: nat, mask: Word) returns (has: bool)
    requires Standard(item) && severity == item.qualifier * SEVERITY_MASK && mask <= SEVERITY_MASK
    ensures has == HasSeverity(item, level, mask)
  {
    assert severity * mask == item.qualifier * mask;
    has := false;
    if MaintField(item.chProperties) == level {
      has := true;
    } else if MaintField(item.chProperties) == MAINT_QUALIFIED {
      if severity * mask != {} { has := true; }
    }
  }

  /** pf_alarm_add_diag_item_to_summary: add one item to a summary. */
  method AddDiagItem(sameAr: bool, item: DiagItem, spec0: AlarmSpec, maint0: Word)
    returns (spec: AlarmSpec, maint: Word)
    ensures forall b: nat :: b in maint <==> b in maint0 || SetsBit(item, b)
    ensures spec == Extended(sameAr, spec0, item)
  {
    hide HasSeverity, MaintField, SpecField;
    spec, maint := spec0, maint0;
    if item.usi < USI_CHANNEL_DIAGNOSIS {
      spec := spec.(manufacturer := true, submodule := true);
      if sameAr { spec := spec.(ar := true); }
    } else {
      var severity := item.qualifier * SEVERITY_MASK;
      var isRequired := TestSeverity(item, severity, MAINT_REQUIRED, REQUIRED_MASK);
      var isDemanded := TestSeverity(item, severity, MAINT_DEMANDED, DEMANDED_MASK);
      var isFault := TestSeverity(item, severity, MAINT_FAULT, FAULT_MASK);
      var isAppears := SpecField(item.chProperties) == SPEC_APPEARS;
      maint := maint + severity;
      if isRequired { maint := maint + {BIT_REQUIRED}; }
      if isDemanded { maint := maint + {BIT_DEMANDED}; }
      if isAppears { spec := spec.(channel := true); }
      if isAppears && isFault { spec := spec.(submodule := true); }
      if isAppears && isFault && sameAr { spec := spec.(ar := true); }
    }
  }

  /** `path` is the list of items that starts at index `ix`. */
  ghost predicate Chain(pool: seq<DiagItem>, ix: nat, path: seq<nat>)
    decreases |path|
  {
    if ix >= |pool| then path == []
    else path != [] && path[0] == ix && Chain(pool, pool[ix].next, path[1..])
  }

  /** The items along a path. */
  ghost function Along(pool: seq<DiagItem>, path: seq<nat>): seq<DiagItem>
    requires forall i :: 0 <= i < |path| ==> path[i] < |pool|
  {
    seq(|path|, i requires 0 <= i < |path| => pool[path[i]])
  }

  lemma {:induction false} ChainInPool(pool: seq<DiagItem>, ix: nat, path: seq<nat>)
    requires Chain(pool, ix, path)
    ensures forall i :: 0 <= i < |path| ==> path[i] < |pool|
    decreases |path|
  {
    if path != [] {
      ChainInPool(pool, pool[ix].next, path[1..]);
      assert forall i :: 1 <= i < |path| ==> path[i] == path[1..][i - 1];
    }
  }

  /** A list that ends visits no item twice, and an index starts at most one list. */
  lemma {:induction false} ChainUnique(pool: seq<DiagItem>, ix: nat, path1: seq<nat>, path2: seq<nat>)
    requires Chain(pool, ix, path1) && Chain(pool, ix, path2)
    ensures path1 == path2
    decreases |path1|
  {
    if ix < |pool| {
      ChainUnique(pool, pool[ix].next, path1[1..], path2[1..]);
      assert path1 == [path1[0]] + path1[1..] && path2 == [path2[0]] + path2[1..];
    }
  }

  lemma {:induction false} ChainSuffix(pool: seq<DiagItem>, ix: nat, path: seq<nat>, k: nat)
    requires Chain(pool, ix, path) && k < |path|
    ensures Chain(pool, path[k], path[k..])
    decreases k
  {
    if k > 0 {
      ChainSuffix(pool, pool[ix].next, path[1..], k - 1);
      assert path[1..][k - 1..] == path[k..];
    }
  }

  lemma ChainAcyclic(pool: seq<DiagItem>, ix: nat, path: seq<nat>)
    requires Chain(pool, ix, path)
    ensures forall i, j :: 0 <= i < j < |path| ==> path[i] != path[j]
  {
    forall i, j | 0 <= i < j < |path| ensures path[i] != path[j] {
      ChainSuffix(pool, ix, path, i);
      ChainSuffix(pool, ix, path, j);
      if path[i] == path[j] {
        ChainUnique(pool, path[i], path[i..], path[j..]);
        assert false;
      }
    }
  }

  lemma SummaryAppend(sameAr: bool, items: seq<DiagItem>, spec: AlarmSpec, maint: Word, maint': Word, item: DiagItem)
    requires Summarises(sameAr, items, spec, maint)
    requires forall b: nat :: b in maint' <==> b in maint || SetsBit(item, b)
    ensures Summarises(sameAr, items + [item], Extended(sameAr, spec, item), maint')
  {
    hide Appears, FaultsSubmodule, Standard, SetsBit;
    var more := items + [item];
    assert forall x :: x in more <==> x in items || x == item;
    forall b: nat ensures b in maint' <==> exists x :: x in more && SetsBit(x, b) {
      if SetsBit(item, b) { assert item in more; }
      if b in maint { var x :| x in items && SetsBit(x, b); assert x in more; }
    }
    if Appears(item) || !Standard(item) || FaultsSubmodule(item) { assert item in more; }
    forall x | x in items ensures x in more {}
  }

  lemma NothingSummarised(sameAr: bool)
    ensures Summarises(sameAr, [], NO_SPEC, {})
  {
  }

  /** pf_alarm_get_diag_summary: the current item, if any, then all items of the sub-slot's list.
      A sub-slot that does not exist gives an empty summary. */
  method GetDiagSummary(pool: array<DiagItem>, list: Option<nat>, sameAr: bool, current: Option<DiagItem>,
        ghost path: seq<nat>)
    returns (spec: AlarmSpec, maint: Word)
    requires list.Some? ==> Chain(pool[..], list.value, path)
    ensures list.None? ==> spec == NO_SPEC && maint == {}
    ensures list.Some? ==> (forall i :: 0 <= i < |path| ==> path[i] < pool.Length)
                           && Summarises(sameAr,
                                         (if current.Some? then [current.value] else []) + Along(pool[..], path),
                                         spec, maint)
  {
    hide Extended, SetsBit, Summarises;
    spec, maint := NO_SPEC, {};
    if list.Some? {
      ghost var all := pool[..];
      ChainInPool(all, list.value, path);
      ghost var done: seq<DiagItem> := [];
      NothingSummarised(sameAr);
      if current.Some? {
        ghost var spec0, maint0 := spec, maint;
        spec, maint := AddDiagItem(sameAr, current.value, spec, maint);
        SummaryAppend(sameAr, done, spec0, maint0, maint, current.value);
        done := [] + [current.value];
      }
      ghost var first := done;
      var ix: nat := list.value;
      ghost var k := 0;
      while ix < pool.Length
        invariant 0 <= k <= |path| && Chain(all, ix, path[k..])
        invariant done == first + Along(all, path[..k])
        invariant Summarises(sameAr, done, spec, maint)
        decreases |path| - k
      {
        ghost var spec0, maint0 := spec, maint;
        spec, maint := AddDiagItem(sameAr, pool[ix], spec, maint);
        SummaryAppend(sameAr, done, spec0, maint0, maint, pool[ix]);
        assert path[k] == path[k..][0] == ix;
        assert path[k..][1..] == path[k + 1..];
        assert Along(all, path[..k + 1]) == Along(all, path[..k]) + [pool[ix]];
        done := done + [pool[ix]];
        ix := pool[ix].next;
        k := k + 1;
      }
      assert path[..k] == path && pool[..] == all;
      assert current.None? || [current.value] == first;
      assert done == (if current.Some? then [current.value] else []) + Along(pool[..], path);
    }
  }
}
