/**
 AnalysisSectionVersions: seven version numbers stored as "g=1;s=2;o=3;b=4;k=5;p=6;r=7".
 Reading is all or nothing. How a decimal is read beyond the canonical ones is left open:
 `toUInt` may be any function that reads those right.
 */
module SectionVersions {

  import opened Wrappers

  const SECTIONS := 7
  const LETTERS := "gsobkpr"
  const LIMIT := 0x1_0000_0000

  datatype Versions = Versions(geometry: nat, spectralWaveform: nat, overview: nat, beatGrid: nat, key: nat,
                               phrase: nat, renderArtifacts: nat)

  // A row without section metadata.
  const LEGACY := Versions(0, 0, 0, 0, 0, 0, 0)

  const CURRENT := Versions(2, 2, 2, 3, 1, 1, 1)

  function At(v: Versions, section: nat): nat
  {
    if section == 0 then v.geometry else if section == 1 then v.spectralWaveform
    else if section == 2 then v.overview else if section == 3 then v.beatGrid
    else if section == 4 then v.key else if section == 5 then v.phrase else v.renderArtifacts
  }

  // ---- Printing ------------------------------------------------------------------------

  function Digit(d: nat): char
    requires d < 10
  {
    "0123456789"[d]
  }

  function Decimal(n: nat): (s: string)
    ensures s != "" && forall c :: c in s ==> '0' <= c <= '9'
  {
    if n < 10 then [Digit(n)] else Decimal(n / 10) + [Digit(n % 10)]
  }

  // The field a section is printed as.
  function Field(v: Versions, section: nat): (field: string)
    requires section < SECTIONS
    ensures ';' !in field && field != ""
  {
    [LETTERS[section]] + "=" + Decimal(At(v, section))
  }

  function ToStorageString(v: Versions): string
  {
    Field(v, 0) + ";" + Field(v, 1) + ";" + Field(v, 2) + ";" + Field(v, 3) + ";" + Field(v, 4) + ";" + Field(v, 5)
    + ";" + Field(v, 6)
  }

  // ---- Reading -------------------------------------------------------------------------

  type Reader = string -> Option<nat>

  // Canonical decimals of 32-bit numbers are read right; nothing else is said.
  ghost predicate ReadsDecimals(toUInt: Reader)
  {
    forall n: nat :: n < LIMIT ==> toUInt(Decimal(n)) == Some(n)
  }

  function DigitOf(c: char): nat
  {
    if '0' <= c <= '9' then c as int - '0' as int else 0
  }

  // The plainest such reader: digits only.
  function ReadDigits(s: string): Option<nat>
  {
    if s == "" || exists c :: c in s && !('0' <= c <= '9') then None
    else if ValueOf(s) < LIMIT then Some(ValueOf(s)) else None
  }

  function ValueOf(s: string): nat
  {
    if s == "" then 0 else 10 * ValueOf(s[..|s| - 1]) + DigitOf(s[|s| - 1])
  }

  lemma {:induction false} DecimalIsRead(n: nat)
    ensures ValueOf(Decimal(n)) == n
  {
    assert forall d :: 0 <= d < 10 ==> DigitOf(Digit(d)) == d;
    if n < 10 {
      assert Decimal(n)[..0] == "";
    } else {
      DecimalIsRead(n / 10);
      assert Decimal(n)[..|Decimal(n)| - 1] == Decimal(n / 10);
    }
  }

  /** There is such a reader. */
  lemma {:induction false} DigitsReadDecimals()
    ensures ReadsDecimals(s => ReadDigits(s))
  {
    forall n: nat | n < LIMIT ensures ReadDigits(Decimal(n)) == Some(n) {
      DecimalIsRead(n);
    }
  }

  // The parts of a string between separators, empty ones included.
  function Split(s: string, separator: char): (parts: seq<string>)
    ensures |parts| >= 1
  {
    if s == "" then [""]
    else
      var rest := Split(s[1..], separator);
      if s[0] == separator then [""] + rest else [[s[0]] + rest[0]] + rest[1..]
  }

  function NonEmpty(parts: seq<string>): seq<string>
  {
    if parts == [] then []
    else if parts[|parts| - 1] == "" then NonEmpty(parts[..|parts| - 1])
    else NonEmpty(parts[..|parts| - 1]) + [parts[|parts| - 1]]
  }

  function SectionOf(name: string): (section: Option<nat>)
    ensures section.Some? ==> section.value < SECTIONS && name == [LETTERS[section.value]]
  {
    if name == "g" then Some(0) else if name == "s" then Some(1) else if name == "o" then Some(2)
    else if name == "b" then Some(3) else if name == "k" then Some(4) else if name == "p" then Some(5)
    else if name == "r" then Some(6) else None
  }

  // The number a field gives to a section, if it is a valid field of that section.
  function Given(field: string, section: nat, toUInt: Reader): Option<nat>
  {
    var pair := Split(field, '=');
    if |pair| != 2 || SectionOf(pair[0]) != Some(section) then None
    else
      var number := toUInt(pair[1]);
      if number == Some(0) then None else number
  }

  // The number the last valid field of a section gives.
  function Lookup(fields: seq<string>, section: nat, toUInt: Reader): Option<nat>
  {
    if fields == [] then None
    else
      var given := Given(fields[|fields| - 1], section, toUInt);
      if given.Some? then given else Lookup(fields[..|fields| - 1], section, toUInt)
  }

  predicate Complete(fields: seq<string>, toUInt: Reader)
  {
    forall i :: 0 <= i < SECTIONS ==> Lookup(fields, i, toUInt).Some?
  }

  // The stored versions, if every section has one.
  function Stored(fields: seq<string>, toUInt: Reader): (v: Versions)
    ensures Complete(fields, toUInt) ==>
      forall i :: 0 <= i < SECTIONS ==> Lookup(fields, i, toUInt) == Some(At(v, i))
    ensures !Complete(fields, toUInt) ==> v == LEGACY
  {
    if !Complete(fields, toUInt) then LEGACY
    else Versions(Lookup(fields, 0, toUInt).value, Lookup(fields, 1, toUInt).value, Lookup(fields, 2, toUInt).value,
                  Lookup(fields, 3, toUInt).value, Lookup(fields, 4, toUInt).value, Lookup(fields, 5, toUInt).value,
                  Lookup(fields, 6, toUInt).value)
  }

  function With(v: Versions, section: nat, number: nat): (w: Versions)
    ensures forall i :: 0 <= i < SECTIONS ==>
      At(w, i) == if i == section || (i == 6 && section > 6) then number else At(v, i)
  {
    if section == 0 then v.(geometry := number) else if section == 1 then v.(spectralWaveform := number)
    else if section == 2 then v.(overview := number) else if section == 3 then v.(beatGrid := number)
    else if section == 4 then v.(key := number) else if section == 5 then v.(phrase := number)
    else v.(renderArtifacts := number)
  }

  // `result` has the number of every section in `mask`, and no other section has one.
  predicate Matches(fields: seq<string>, result: Versions, mask: set<nat>, toUInt: Reader)
  {
    && (forall i :: i in mask ==> i < SECTIONS)
    && forall i :: 0 <= i < SECTIONS ==>
         Lookup(fields, i, toUInt) == if i in mask then Some(At(result, i)) else None
  }

  lemma {:induction false} FieldIsRead(fields: seq<string>, field: string, result: Versions, mask: set<nat>,
                                       toUInt: Reader, section: Option<nat>, number: nat)
    requires Matches(fields, result, mask, toUInt)
    requires section.Some? ==> section.value < SECTIONS
    requires forall i :: 0 <= i < SECTIONS ==>
      Given(field, i, toUInt) == if section == Some(i) then Some(number) else None
    ensures if section.None? then Matches(fields + [field], result, mask, toUInt)
            else Matches(fields + [field], With(result, section.value, number), mask + {section.value}, toUInt)
  {
    hide Given;
    assert (fields + [field])[..|fields|] == fields;
  }

  lemma NothingMatches(v: Versions, toUInt: Reader)
    ensures Matches([], v, {}, toUInt)
  {
  }

  // Reads field by field; `mask` is the set of sections seen.
  method FromStorageString(value: string, toUInt: Reader) returns (result: Versions)
    ensures result == Stored(NonEmpty(Split(value, ';')), toUInt)
  {
    NothingMatches(CURRENT, toUInt);
    hide With, Lookup;
    result := CURRENT;
    var mask: set<nat> := {};
    var fields := NonEmpty(Split(value, ';'));
    var k := 0;
    assert fields[..0] == [];
    while k < |fields|
      invariant k <= |fields| && Matches(fields[..k], result, mask, toUInt)
    {
      var field := fields[k];
      assert fields[..k + 1] == fields[..k] + [field];
      k := k + 1;
      var pair := Split(field, '=');
      if |pair| != 2 {
        FieldIsRead(fields[..k - 1], field, result, mask, toUInt, None, 0);
        continue;
      }
      var number := toUInt(pair[1]);
      if number.None? || number.value == 0 {
        FieldIsRead(fields[..k - 1], field, result, mask, toUInt, None, 0);
        continue;
      }
      var section := SectionOf(pair[0]);
      FieldIsRead(fields[..k - 1], field, result, mask, toUInt, section, number.value);
      if section.None? {
        continue;
      }
      result := With(result, section.value, number.value);
      mask := mask + {section.value};
    }
    assert fields[..k] == fields;
    if mask != {0, 1, 2, 3, 4, 5, 6} {
      SomeMissing(fields, result, mask, toUInt);
      return LEGACY;
    }
    SameVersions(result, Stored(fields, toUInt));
  }

  lemma {:induction false} SomeMissing(fields: seq<string>, result: Versions, mask: set<nat>, toUInt: Reader)
    requires Matches(fields, result, mask, toUInt) && mask != {0, 1, 2, 3, 4, 5, 6}
    ensures !Complete(fields, toUInt)
  {
    assert (forall i :: 0 <= i < SECTIONS ==> i in mask) ==> mask == {0, 1, 2, 3, 4, 5, 6};
    hide Lookup;
  }

  lemma SameVersions(v: Versions, w: Versions)
    requires forall i :: 0 <= i < SECTIONS ==> At(v, i) == At(w, i)
    ensures v == w
  {
    assert At(v, 0) == At(w, 0) && At(v, 1) == At(w, 1) && At(v, 2) == At(w, 2) && At(v, 3) == At(w, 3);
    assert At(v, 4) == At(w, 4) && At(v, 5) == At(w, 5) && At(v, 6) == At(w, 6);
  }

  // ---- Round trips ---------------------------------------------------------------------

  function Join(parts: seq<string>, separator: char): string
  {
    if parts == [] then "" else if |parts| == 1 then parts[0]
    else parts[0] + [separator] + Join(parts[1..], separator)
  }

  lemma {:induction false} SplitOne(s: string, separator: char)
    requires separator !in s
    ensures Split(s, separator) == [s]
  {
    if s != "" {
      SplitOne(s[1..], separator);
      assert [s[0]] + s[1..] == s;
    }
  }

  lemma {:induction false} SplitFirst(s: string, rest: string, separator: char)
    requires separator !in s
    ensures Split(s + [separator] + rest, separator) == [s] + Split(rest, separator)
  {
    var all := s + [separator] + rest;
    if s == "" {
      assert all[1..] == rest;
    } else {
      assert all[0] == s[0] && all[1..] == s[1..] + [separator] + rest;
      SplitFirst(s[1..], rest, separator);
      assert [s[0]] + s[1..] == s;
    }
  }

  lemma {:induction false} SplitJoin(parts: seq<string>, separator: char)
    requires parts != [] && forall i :: 0 <= i < |parts| ==> separator !in parts[i]
    ensures Split(Join(parts, separator), separator) == parts
  {
    if |parts| == 1 {
      SplitOne(parts[0], separator);
    } else {
      SplitJoin(parts[1..], separator);
      SplitFirst(parts[0], Join(parts[1..], separator), separator);
    }
  }

  lemma {:induction false} NothingEmpty(parts: seq<string>)
    requires forall i :: 0 <= i < |parts| ==> parts[i] != ""
    ensures NonEmpty(parts) == parts
  {
    if parts != [] {
      NothingEmpty(parts[..|parts| - 1]);
    }
  }

  lemma {:induction false} FieldGives(v: Versions, section: nat, other: nat, toUInt: Reader)
    requires section < SECTIONS && other < SECTIONS && At(v, section) < LIMIT && ReadsDecimals(toUInt)
    ensures Given(Field(v, section), other, toUInt)
            == if other == section && At(v, section) != 0 then Some(At(v, section)) else None
  {
    var name, number := [LETTERS[section]], Decimal(At(v, section));
    assert Field(v, section) == name + ['='] + number;
    SplitFirst(name, number, '=');
    SplitOne(number, '=');
  }

  // The fields of v in some order.
  function Ordered(v: Versions, order: seq<nat>): (fields: seq<string>)
    requires forall k :: 0 <= k < |order| ==> order[k] < SECTIONS
    ensures |fields| == |order| && forall k :: 0 <= k < |order| ==> fields[k] == Field(v, order[k])
  {
    seq(|order|, k requires 0 <= k < |order| => Field(v, order[k]))
  }

  lemma {:induction false} LookupOrdered(v: Versions, order: seq<nat>, section: nat, toUInt: Reader)
    requires forall k :: 0 <= k < |order| ==> order[k] < SECTIONS
    requires section < SECTIONS && ReadsDecimals(toUInt) && forall i :: 0 <= i < SECTIONS ==> At(v, i) < LIMIT
    ensures Lookup(Ordered(v, order), section, toUInt)
            == if section in order && At(v, section) != 0 then Some(At(v, section)) else None
  {
    if order != [] {
      var n := |order| - 1;
      LookupOrdered(v, order[..n], section, toUInt);
      assert Ordered(v, order)[..n] == Ordered(v, order[..n]);
      assert order == order[..n] + [order[n]];
      FieldGives(v, order[n], section, toUInt);
    }
  }

  // All seven sections, each at least once.
  predicate NamesAll(order: seq<nat>)
  {
    && (forall k :: 0 <= k < |order| ==> order[k] < SECTIONS)
    && (forall i :: 0 <= i < SECTIONS ==> i in order)
  }

  /** Whatever the order of the fields, reading gives back exactly the seven numbers if all of
      them are non-zero, and the legacy value otherwise. */
  lemma {:induction false} ReadsInAnyOrder(v: Versions, order: seq<nat>, toUInt: Reader)
    requires NamesAll(order) && ReadsDecimals(toUInt) && forall i :: 0 <= i < SECTIONS ==> At(v, i) < LIMIT
    ensures Stored(NonEmpty(Split(Join(Ordered(v, order), ';'), ';')), toUInt)
            == if forall i :: 0 <= i < SECTIONS ==> At(v, i) != 0 then v else LEGACY
  {
    var fields := Ordered(v, order);
    assert 0 in order;
    SplitJoin(fields, ';');
    NothingEmpty(fields);
    forall i | 0 <= i < SECTIONS
      ensures Lookup(fields, i, toUInt) == if At(v, i) != 0 then Some(At(v, i)) else None
    {
      LookupOrdered(v, order, i, toUInt);
    }
    if forall i :: 0 <= i < SECTIONS ==> At(v, i) != 0 {
      assert Complete(fields, toUInt);
      SameVersions(v, Stored(fields, toUInt));
    } else {
      var i :| 0 <= i < SECTIONS && At(v, i) == 0;
      assert Lookup(fields, i, toUInt).None?;
    }
  }

  const PRINTED: seq<nat> := [0, 1, 2, 3, 4, 5, 6]

  lemma {:induction false} JoinAppend(parts: seq<string>, last: string)
    requires parts != []
    ensures Join(parts + [last], ';') == Join(parts, ';') + ";" + last
  {
    if |parts| > 1 {
      JoinAppend(parts[1..], last);
      assert (parts + [last])[1..] == parts[1..] + [last];
    } else {
      assert (parts + [last])[1..] == [last];
    }
  }

  lemma {:induction false} PrintsInOrder(v: Versions)
    ensures ToStorageString(v) == Join(Ordered(v, PRINTED), ';')
  {
    var f := Ordered(v, PRINTED);
    assert Join(f[..1], ';') == f[0];
    hide Field, Join;
    JoinNext(f, 1);
    JoinNext(f, 2);
    JoinNext(f, 3);
    JoinNext(f, 4);
    JoinNext(f, 5);
    JoinNext(f, 6);
    assert f[..7] == f;
  }

  lemma JoinNext(parts: seq<string>, k: nat)
    requires 0 < k < |parts|
    ensures Join(parts[..k + 1], ';') == Join(parts[..k], ';') + ";" + parts[k]
  {
    assert parts[..k + 1] == parts[..k] + [parts[k]];
    JoinAppend(parts[..k], parts[k]);
  }

  /** What is printed reads back as the same seven numbers if and only if none of them is zero,
      or all are. */
  lemma {:induction false} RoundTrip(v: Versions, toUInt: Reader)
    requires ReadsDecimals(toUInt) && forall i :: 0 <= i < SECTIONS ==> At(v, i) < LIMIT
    ensures Stored(NonEmpty(Split(ToStorageString(v), ';')), toUInt) == v <==>
      (forall i :: 0 <= i < SECTIONS ==> At(v, i) != 0) || v == LEGACY
  {
    hide ToStorageString, Split, Join, Stored, NonEmpty, Ordered, Decimal;
    PrintsInOrder(v);
    ReadsInAnyOrder(v, PRINTED, toUInt);
    hide ReadsDecimals;
    if forall i :: 0 <= i < SECTIONS ==> At(v, i) != 0 {
    } else {
      assert v == LEGACY ==> At(v, 0) == 0;
    }
  }

  /** Reading never mixes: the result is the legacy value, or each of its seven numbers comes
      from a field of the string. */
  lemma {:induction false} NeverAMix(fields: seq<string>, toUInt: Reader)
    ensures var v := Stored(fields, toUInt);
      v == LEGACY || forall i :: 0 <= i < SECTIONS ==>
        At(v, i) != 0 && exists k :: 0 <= k < |fields| && Given(fields[k], i, toUInt) == Some(At(v, i))
  {
    var v := Stored(fields, toUInt);
    if Complete(fields, toUInt) {
      forall i | 0 <= i < SECTIONS
        ensures At(v, i) != 0 && exists k :: 0 <= k < |fields| && Given(fields[k], i, toUInt) == Some(At(v, i))
      {
        LookupIsGiven(fields, i, toUInt);
      }
    }
  }

  lemma {:induction false} LookupIsGiven(fields: seq<string>, section: nat, toUInt: Reader)
    requires Lookup(fields, section, toUInt).Some?
    ensures Lookup(fields, section, toUInt) != Some(0)
    ensures exists k :: 0 <= k < |fields| && Given(fields[k], section, toUInt) == Lookup(fields, section, toUInt)
  {
    var n := |fields| - 1;
    if Given(fields[n], section, toUInt).None? {
      LookupIsGiven(fields[..n], section, toUInt);
      var k :| 0 <= k < n && Given(fields[..n][k], section, toUInt) == Lookup(fields[..n], section, toUInt);
      assert Given(fields[k], section, toUInt) == Lookup(fields, section, toUInt);
    }
  }
}
