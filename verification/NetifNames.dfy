/**
  The comma-separated list of network interface names given to the sample application: splitting
  it in place into fixed-size name buffers, and which lists are accepted.
*/
module NetifNames {

  // ------------------------------------------------------- lists of names as text

  /** The fields after one more character. */
  function Next(fields: seq<string>, c: char): (next: seq<string>)
    requires |fields| >= 1
    ensures |next| == |fields| + (if c == ',' then 1 else 0)
  {
    var last := |fields| - 1;
    if c == ',' then fields + [""] else fields[last := fields[last] + [c]]
  }

  /** The fields between commas; there is always at least one. */
  function Split(text: string): (fields: seq<string>)
    ensures |fields| >= 1
    decreases |text|
  {
    if text == "" then [""] else Next(Split(text[..|text| - 1]), text[|text| - 1])
  }

  function Join(names: seq<string>): string
    requires |names| >= 1
    decreases |names|
  {
    var last := |names| - 1;
    if last == 0 then names[0] else Join(names[..last]) + "," + names[last]
  }

  ghost predicate CommaFree(names: seq<string>) {
    forall i :: 0 <= i < |names| ==> ',' !in names[i]
  }

  lemma SplitNext(text: string, c: char)
    ensures Split(text + [c]) == Next(Split(text), c)
  {
    assert (text + [c])[..|text|] == text;
  }

  lemma {:induction false} SplitAppend(text: string, name: string)
    requires ',' !in name
    ensures var fields := Split(text); var last := |fields| - 1;
            Split(text + name) == fields[last := fields[last] + name]
    decreases |name|
  {
    var fields := Split(text);
    var last := |fields| - 1;
    if name == "" {
      assert text + name == text && fields[last] + name == fields[last];
    } else {
      var k := |name| - 1;
      SplitAppend(text, name[..k]);
      SplitNext(text + name[..k], name[k]);
      assert text + name == text + name[..k] + [name[k]];
      assert fields[last] + name == (fields[last] + name[..k]) + [name[k]];
    }
  }

  /** Splitting undoes joining. */
  lemma {:induction false} SplitJoin(names: seq<string>)
    requires |names| >= 1 && CommaFree(names)
    ensures Split(Join(names)) == names
    decreases |names|
  {
    var last := |names| - 1;
    assert "" + names[last] == names[last];
    if last == 0 {
      SplitAppend("", names[0]);
      assert names == [names[0]];
    } else {
      var front := Join(names[..last]);
      SplitJoin(names[..last]);
      SplitNext(front, ',');
      SplitAppend(front + ",", names[last]);
      assert (names[..last] + [""])[last := names[last]] == names;
    }
  }

  /** Joining undoes splitting: every text is the join of exactly one list of comma-free names. */
  lemma {:induction false} JoinSplit(text: string)
    ensures CommaFree(Split(text)) && Join(Split(text)) == text
    decreases |text|
  {
    if text != "" {
      var k := |text| - 1;
      var before := Split(text[..k]);
      JoinSplit(text[..k]);
      JoinNext(before, text[k]);
      assert text == text[..k] + [text[k]];
    }
  }

  lemma JoinNext(names: seq<string>, c: char)
    requires |names| >= 1 && CommaFree(names)
    ensures CommaFree(Next(names, c)) && Join(Next(names, c)) == Join(names) + [c]
  {
    var last := |names| - 1;
    var next := Next(names, c);
    if c == ',' {
      assert next[..last + 1] == names;
    } else if last > 0 {
      assert next[..last] == names[..last];
    }
  }

  // ------------------------------------------------------- rows of characters

  /** Row `r` holds `name`, and nothing but terminators after it. */
  ghost predicate Holds(list: array2<char>, r: nat, name: string)
    reads list
  {
    && r < list.Length0 && |name| < list.Length1
    && (forall j :: 0 <= j < |name| ==> list[r, j] == name[j])
    && (forall j :: |name| <= j < list.Length1 ==> list[r, j] == '\0')
  }

  /** The names that will be stored leave room for a terminator. */
  ghost predicate NamesFit(names: seq<string>, rows: nat, size: nat) {
    forall i :: 0 <= i < |names| && i < rows ==> |names[i]| < size
  }

  function Stored(names: seq<string>, rows: nat): nat {
    if |names| <= rows then |names| else rows
  }

  /** The rows hold the first names; the other rows are empty. */
  ghost predicate HoldsAll(list: array2<char>, names: seq<string>, rows: nat)
    reads list
  {
    && (forall r :: 0 <= r < Stored(names, rows) ==> Holds(list, r, names[r]))
    && (forall r :: Stored(names, rows) <= r < list.Length0 ==> Holds(list, r, ""))
  }

  /** The fields of a prefix are no longer than those of the whole text, and no more. */
  lemma {:induction false} FieldsGrow(text: string, k: nat, rows: nat, size: nat)
    requires k <= |text| && NamesFit(Split(text), rows, size)
    ensures NamesFit(Split(text[..k]), rows, size)
    ensures |Split(text[..k])| <= k + 1
    decreases |text| - k
  {
    FieldCount(text[..k]);
    if k == |text| {
      assert text[..k] == text;
    } else {
      FieldsGrow(text, k + 1, rows, size);
      SplitNext(text[..k], text[k]);
      assert text[..k + 1] == text[..k] + [text[k]];
      var now, next := Split(text[..k]), Split(text[..k + 1]);
      forall i | 0 <= i < |now| && i < rows ensures |now[i]| < size { assert |now[i]| <= |next[i]| < size; }
    }
  }

  lemma {:induction false} FieldCount(text: string)
    ensures |Split(text)| <= |text| + 1
    decreases |text|
  {
    if text != "" { FieldCount(text[..|text| - 1]); }
  }

  method Clear(list: array2<char>)
    requires list.Length1 > 0
    modifies list
    ensures forall r :: 0 <= r < list.Length0 ==> Holds(list, r, "")
  {
    forall r, j | 0 <= r < list.Length0 && 0 <= j < list.Length1 { list[r, j] := '\0'; }
  }

  /** Append a character to the newest name, which is in row `r`. */
  method PutChar(list: array2<char>, r: nat, j: nat, c: char, ghost names: seq<string>, ghost rows: nat)
    requires rows <= list.Length0 && |names| - 1 == r < rows && HoldsAll(list, names, rows)
    requires c != ',' && j == |names[r]| && j + 1 < list.Length1
    modifies list
    ensures HoldsAll(list, Next(names, c), rows)
  {
    list[r, j] := c;
    assert Holds(list, r, names[r] + [c]);
    forall r' | 0 <= r' < |names| && r' != r
      ensures Holds(list, r', names[r']) { assert old(Holds(list, r', names[r'])); }
    forall r' | |names| <= r' < list.Length0 ensures Holds(list, r', "") { assert old(Holds(list, r', "")); }
  }

  /** Terminate the newest name; the buffer is cleared already, so its contents stay. */
  method Terminate(list: array2<char>, r: nat, j: nat, ghost names: seq<string>, ghost rows: nat)
    requires rows <= list.Length0 && |names| - 1 == r < rows && HoldsAll(list, names, rows)
    requires j == |names[r]| && j < list.Length1
    modifies list
    ensures HoldsAll(list, Next(names, ','), rows)
  {
    assert Holds(list, r, names[r]);
    list[r, j] := '\0';
    forall r' | 0 <= r' < |names| ensures Holds(list, r', names[r']) { assert old(Holds(list, r', names[r'])); }
    forall r' | |names| <= r' < list.Length0 ensures Holds(list, r', "") { assert old(Holds(list, r', "")); }
  }

  /** Characters that find no row are dropped. */
  lemma Dropped(list: array2<char>, names: seq<string>, c: char, rows: nat)
    requires rows < |names| && HoldsAll(list, names, rows)
    ensures HoldsAll(list, Next(names, c), rows)
  {
  }

  /** The C string `arg` up to its terminator. */
  function Text(arg: seq<char>): string
    requires Terminated(arg)
  {
    arg[..|arg| - 1]
  }

  predicate Terminated(arg: seq<char>) {
    |arg| > 0 && arg[|arg| - 1] == '\0' && forall i :: 0 <= i < |arg| - 1 ==> arg[i] != '\0'
  }

  lemma {:induction false} JoinWithoutTerminator(names: seq<string>)
    requires |names| >= 1 && forall i :: 0 <= i < |names| ==> '\0' !in names[i]
    ensures '\0' !in Join(names)
    decreases |names|
  {
    if |names| > 1 { JoinWithoutTerminator(names[..|names| - 1]); }
  }

  /** The parser reads the terminated join of comma-free names as exactly these names. */
  lemma RoundTrip(names: seq<string>, arg: seq<char>)
    requires |names| >= 1 && CommaFree(names) && (forall i :: 0 <= i < |names| ==> '\0' !in names[i])
    requires arg == Join(names) + ['\0']
    ensures Terminated(arg) && Split(Text(arg)) == names
  {
    JoinWithoutTerminator(names);
    SplitJoin(names);
    assert Text(arg) == Join(names);
  }

  /** The splitting loop; `given` counts the names. */
  method Scan(arg: seq<char>, rows: nat, list: array2<char>) returns (given: nat)
    requires Terminated(arg) && rows <= list.Length0 && list.Length1 > 0
    requires NamesFit(Split(Text(arg)), rows, list.Length1)
    modifies list
    ensures given == |Split(Text(arg))| <= |arg| && HoldsAll(list, Split(Text(arg)), rows)
  {
    hide HoldsAll, Next;
    ghost var text := Text(arg);
    var i, j, ifIndex := 0, 0, 0;
    given := 1;
    Clear(list);
    EmptyHeld(list, rows);
    ghost var names := [""];
    var c := arg[i];
    i := i + 1;
    while c != '\0'
      invariant 1 <= i <= |arg| && c == arg[i - 1] && names == Split(text[..i - 1])
      invariant given == |names| && HoldsAll(list, names, rows)
      invariant ifIndex == (if given <= rows then given - 1 else rows)
      invariant ifIndex < rows ==> j == |names[given - 1]|
      decreases |arg| - i
    {
      Room(text, i - 1, rows, list.Length1);
      if c != ',' {
        if ifIndex < rows {
          PutChar(list, ifIndex, j, c, names, rows);
          j := j + 1;
        } else {
          Dropped(list, names, c, rows);
        }
      } else {
        if ifIndex < rows {
          Terminate(list, ifIndex, j, names, rows);
          j := 0;
          ifIndex := ifIndex + 1;
        } else {
          Dropped(list, names, c, rows);
        }
        given := given + 1;
      }
      names := Next(names, c);
      c := arg[i];
      i := i + 1;
    }
    assert text[..i - 1] == text;
    FieldCount(text);
  }

  lemma EmptyHeld(list: array2<char>, rows: nat)
    requires rows <= list.Length0 && forall r :: 0 <= r < list.Length0 ==> Holds(list, r, "")
    ensures HoldsAll(list, Split(""), rows)
  {
  }

  /** Reading character `k`: the fields so far, and the room for it. */
  lemma Room(text: string, k: nat, rows: nat, size: nat)
    requires k < |text| && NamesFit(Split(text), rows, size)
    ensures var names, next := Split(text[..k]), Split(text[..k + 1]);
            && next == Next(names, text[k])
            && (|names| <= rows ==> |names[|names| - 1]| < size && (text[k] != ',' ==> |names[|names| - 1]| + 1 < size))
            && |next[|next| - 1]| == (if text[k] == ',' then 0 else |names[|names| - 1]| + 1)
  {
    FieldsGrow(text, k, rows, size);
    FieldsGrow(text, k + 1, rows, size);
    SplitNext(text[..k], text[k]);
    assert text[..k + 1] == text[..k] + [text[k]];
  }

  /** strlen of a row that is zero. */
  method IsEmpty(list: array2<char>, r: nat, ghost name: string) returns (empty: bool)
    requires Holds(list, r, name) && '\0' !in name
    ensures empty <==> name == ""
  {
    empty := list[r, 0] == '\0';
  }

  method CopyFirst(list: array2<char>, ghost name: string)
    requires list.Length0 >= 2 && Holds(list, 0, name) && forall r :: 1 <= r < list.Length0 ==> Holds(list, r, "")
    modifies list
    ensures Holds(list, 0, name) && Holds(list, 1, name) && forall r :: 2 <= r < list.Length0 ==> Holds(list, r, "")
  {
    forall j | 0 <= j < list.Length1 { list[1, j] := list[0, j]; }
    forall r | 2 <= r < list.Length0 ensures Holds(list, r, "") { assert old(Holds(list, r, "")); }
  }

  lemma {:induction false} NoTerminatorInside(text: string)
    requires '\0' !in text
    ensures forall k :: 0 <= k < |Split(text)| ==> '\0' !in Split(text)[k]
    decreases |text|
  {
    if text != "" { NoTerminatorInside(text[..|text| - 1]); }
  }

  /** Whether all names are non-empty. */
  method AllNamed(list: array2<char>, given: nat, ghost names: seq<string>) returns (named: bool)
    requires given == |names| <= list.Length0
    requires forall r :: 0 <= r < given ==> Holds(list, r, names[r]) && '\0' !in names[r]
    ensures named <==> forall r :: 0 <= r < given ==> names[r] != ""
  {
    for i := 0 to given
      invariant forall r :: 0 <= r < i ==> names[r] != ""
    {
      var empty := IsEmpty(list, i, names[i]);
      if empty { return false; }
    }
    named := true;
  }

  /** The 16-bit number of names the parser has room for; it wraps to 0 for the largest port number. */
  function ListSize(maxPort: nat): nat {
    (maxPort + 1) % 0x1_0000
  }

  /** app_utils_get_netif_namelist: accepts one name for a device with one port, or one for each of at least two ports
      and one for the device, unless a name is empty or the list size wraps; stores exactly the names; a single name
      is stored for the device and for its port. */
  method GetNetifNamelist(arg: seq<char>, maxPort: nat, list: array2<char>, oldPorts: nat)
    returns (ok: bool, ports: nat)
    requires Terminated(arg) && |arg| < 0x1_0000 && maxPort < 0x1_0000 && maxPort < list.Length0 && list.Length1 > 0
    requires NamesFit(Split(Text(arg)), ListSize(maxPort), list.Length1)
    modifies list
    ensures var names := Split(Text(arg));
            && (ok <==> && 1 <= maxPort < 0xffff && (forall r :: 0 <= r < |names| ==> names[r] != "")
                        && (|names| == 1 || 3 <= |names| <= maxPort + 1))
            && ports == (if !ok then oldPorts else if |names| == 1 then 1 else |names| - 1)
            && (ok ==> HoldsAll(list, if |names| == 1 then [names[0], names[0]] else names, maxPort + 1))
  {
    ok, ports := false, oldPorts;
    if maxPort == 0 { return; }
    ghost var names := Split(Text(arg));
    NoTerminatorInside(Text(arg));
    var given := Scan(arg, ListSize(maxPort), list);
    ghost var stored := if maxPort == 0xffff then seq(|names|, _ => "") else names;
    if maxPort == 1 && given > 1 { return; }
    if given == 2 { return; }
    if given > maxPort + 1 { return; }
    assert forall r :: 0 <= r < given ==> Holds(list, r, stored[r]);
    assert maxPort == 0xffff ==> stored[0] == "";
    if given == 1 {
      var empty := IsEmpty(list, 0, stored[0]);
      if empty { return; }
      CopyFirst(list, stored[0]);
      ports := 1;
    } else {
      var named := AllNamed(list, given, stored);
      if !named {
        assert maxPort == 0xffff || exists r :: 0 <= r < given && names[r] == "";
        return;
      }
      ports := given - 1;
    }
    ok := true;
  }
}
