/** Versions of admin releases: which strings are accepted, and in which order
  accepted versions come. */
module Semver {
  import opened Common
  import opened Text

  const UINT64_LIMIT := 0x1_0000_0000_0000_0000

  datatype Version = Version(major: nat, minor: nat, patch: nat, pre: string)

  /** strconv.ParseUint(s, 10, 64) */
  function ParseUint(s: string): Option<nat> {
    if s != "" && AllDigits(s) && Value(s) < UINT64_LIMIT then Some(Value(s)) else None
  }

  // ------------------------------------------------------------------ parsing

  /** `s` up to the first `c`, and what comes after it. */
  function Cut(s: string, c: char): (string, Option<string>) {
    if s == "" then ("", None)
    else if s[0] == c then ("", Some(s[1..]))
    else var (before, after) := Cut(s[1..], c); ([s[0]] + before, after)
  }

  predicate IsIdentifier(s: string) {
    s != "" && forall i :: 0 <= i < |s| ==> IsDigit(s[i]) || 'A' <= s[i] <= 'Z' || 'a' <= s[i] <= 'z' || s[i] == '-'
  }

  predicate AreIdentifiers(s: string) {
    forall part :: part in Split(s, '.') ==> IsIdentifier(part)
  }

  /** 0|[1-9][0-9]* */
  predicate IsNumber(s: string) {
    s != "" && AllDigits(s) && (s[0] == '0' ==> |s| == 1)
  }

  /** The groups of the version pattern: the three numbers and the pre-release
    part, empty when there is none. */
  function Match(s: string): Option<(seq<string>, string)> {
    var bare := if s != "" && s[0] == 'v' then s[1..] else s;
    var (head, build) := Cut(bare, '+');
    var (core, pre) := Cut(head, '-');
    var numbers := Split(core, '.');
    if |numbers| == 3 && (forall n :: n in numbers ==> IsNumber(n))
       && (pre.Some? ==> AreIdentifiers(pre.value)) && (build.Some? ==> AreIdentifiers(build.value))
    then Some((numbers, if pre.Some? then pre.value else "")) else None
  }

  /** A numeric identifier that fits in 64 bits and starts with a spare zero. */
  predicate HasSpareZero(identifier: string) {
    |identifier| > 1 && identifier[0] == '0' && ParseUint(identifier).Some?
  }

  predicate IsCanonical(identifiers: seq<string>) {
    forall i :: 0 <= i < |identifiers| ==> !HasSpareZero(identifiers[i])
  }

  /** parseAdminSemver; None is ErrAdminReleaseInvalid. */
  method Parse(value: string) returns (v: Option<Version>)
    ensures v.Some? ==> IsCanonical(Split(v.value.pre, '.'))
    ensures v == Parsed(value)
  {
    var groups := Match(Trim(value));
    if groups.None? {
      return None;
    }
    var (numbers, pre) := groups.value;
    var major, minor, patch := ParseUint(numbers[0]), ParseUint(numbers[1]), ParseUint(numbers[2]);
    if major.None? || minor.None? || patch.None? {
      return None;
    }
    var identifiers := Split(pre, '.');
    for i := 0 to |identifiers|
      invariant IsCanonical(identifiers[..i])
    {
      if HasSpareZero(identifiers[i]) {
        return None;
      }
    }
    assert identifiers[..|identifiers|] == identifiers;
    v := Some(Version(major.value, minor.value, patch.value, pre));
  }

  function Parsed(value: string): Option<Version> {
    match Match(Trim(value))
    case None => None
    case Some((numbers, pre)) =>
      if |numbers| == 3 && ParseUint(numbers[0]).Some? && ParseUint(numbers[1]).Some? && ParseUint(numbers[2]).Some?
         && IsCanonical(Split(pre, '.'))
      then Some(Version(ParseUint(numbers[0]).value, ParseUint(numbers[1]).value, ParseUint(numbers[2]).value, pre))
      else None
  }

  // -------------------------------------------------- which texts are versions

  lemma {:induction false} CutNowhere(s: string, c: char)
    requires c !in s
    ensures Cut(s, c) == (s, None)
  {
    if s == "" {
    } else {
      CutNowhere(s[1..], c);
      assert s == [s[0]] + s[1..];
    }
  }

  lemma {:induction false} CutAt(before: string, after: string, c: char)
    requires c !in before
    ensures Cut(before + [c] + after, c) == (before, Some(after))
  {
    var s := before + [c] + after;
    if before == "" {
      assert s[1..] == after;
    } else {
      CutAt(before[1..], after, c);
      assert s[1..] == before[1..] + [c] + after && before == [before[0]] + before[1..];
    }
  }

  /** What is cut out is put together again. */
  lemma {:induction false} CutParts(s: string, c: char)
    ensures c !in Cut(s, c).0
    ensures s == Cut(s, c).0 + match Cut(s, c).1 case None => "" case Some(after) => [c] + after
  {
    if s == "" {
    } else {
      CutParts(s[1..], c);
      assert s == [s[0]] + s[1..];
    }
  }

  lemma {:induction false} SplitAt(before: string, after: string, c: char)
    requires c !in before
    ensures Split(before + [c] + after, c) == [before] + Split(after, c)
  {
    var s := before + [c] + after;
    if before == "" {
      assert s[1..] == after;
    } else {
      SplitAt(before[1..], after, c);
      assert s[1..] == before[1..] + [c] + after && before == [before[0]] + before[1..];
    }
  }

  /** The characters of an identifier, with single dots between them. */
  ghost predicate IsDotted(s: string) {
    && s != "" && s[0] != '.' && s[|s| - 1] != '.'
    && (forall i :: 0 <= i < |s| - 1 ==> s[i] != '.' || s[i + 1] != '.')
    && forall i :: 0 <= i < |s| ==>
                     IsDigit(s[i]) || 'A' <= s[i] <= 'Z' || 'a' <= s[i] <= 'z' || s[i] == '-' || s[i] == '.'
  }

  lemma IdentifiersJoin(before: string, rest: string)
    requires '.' !in before
    ensures AreIdentifiers(before + ['.'] + rest) <==> IsIdentifier(before) && AreIdentifiers(rest)
  {
    SplitAt(before, rest, '.');
    var parts := Split(rest, '.');
    assert ([before] + parts)[0] == before;
    forall part ensures part in [before] + parts <==> part == before || part in parts { }
  }

  lemma OneIdentifier(s: string)
    requires '.' !in s
    ensures (AreIdentifiers(s) <==> IsIdentifier(s)) && (IsIdentifier(s) <==> IsDotted(s))
  {
    SplitWhole(s, '.');
    assert [s][0] == s;
    forall i | 0 <= i < |s| ensures s[i] != '.' { assert s[i] in s; }
  }

  lemma {:induction false} DottedIff(s: string)
    ensures AreIdentifiers(s) <==> IsDotted(s)
    decreases |s|
  {
    CutParts(s, '.');
    if Cut(s, '.').1 == None {
      OneIdentifier(s);
    } else {
      var before, rest := Cut(s, '.').0, Cut(s, '.').1.value;
      assert s == before + ['.'] + rest;
      IdentifiersJoin(before, rest);
      DottedIff(rest);
      DottedJoin(before, rest);
    }
  }

  lemma DottedJoin(before: string, rest: string)
    requires '.' !in before
    ensures IsDotted(before + ['.'] + rest) <==> IsIdentifier(before) && IsDotted(rest)
  {
    var s := before + ['.'] + rest;
    forall i | 0 <= i < |before| ensures s[i] == before[i] && before[i] in before { }
    forall i | 0 <= i < |rest| ensures s[|before| + 1 + i] == rest[i] { }
    if IsDotted(s) {
      assert before != "" && rest != "";
      assert s[|before|] == '.' && s[|before| + 1] == rest[0];
      forall i | 0 <= i < |rest| - 1 ensures rest[i] != '.' || rest[i + 1] != '.' {
        assert s[|before| + 1 + i] != '.' || s[|before| + 1 + i + 1] != '.';
      }
    }
  }

  /** A numeral without a spare zero that fits in 64 bits. */
  ghost predicate IsNumeral(s: string, value: nat) {
    && s != "" && AllDigits(s) && (|s| > 1 ==> s[0] != '0') && Value(s) == value && value < 0x1_0000_0000_0000_0000
  }

  function WithPre(pre: string): string {
    if pre == "" then "" else ['-'] + pre
  }

  function WithBuild(build: Option<string>): string {
    if build.None? then "" else ['+'] + build.value
  }

  /** `text` writes version `v`: an optional v, three numerals, a pre-release part
    if there is one, and perhaps build identifiers, which are dropped. */
  ghost predicate Writes(text: string, v: Version, x: string, y: string, z: string, build: Option<string>) {
    && IsNumeral(x, v.major) && IsNumeral(y, v.minor) && IsNumeral(z, v.patch)
    && (v.pre != "" ==> IsDotted(v.pre) && IsCanonical(Split(v.pre, '.')))
    && (build.Some? ==> IsDotted(build.value))
    && var bare := x + ['.'] + (y + ['.'] + z) + WithPre(v.pre) + WithBuild(build);
    text == bare || text == ['v'] + bare
  }

  ghost predicate IsVersionText(text: string, v: Version) {
    exists x, y, z, build :: Writes(text, v, x, y, z, build)
  }

  lemma NumeralsSplit(x: string, y: string, z: string)
    requires AllDigits(x) && AllDigits(y) && AllDigits(z)
    ensures Split(x + ['.'] + (y + ['.'] + z), '.') == [x, y, z]
  {
    SplitAt(x, y + ['.'] + z, '.');
    SplitAt(y, z, '.');
    SplitWhole(z, '.');
  }

  lemma BuildIsCut(head: string, build: Option<string>)
    requires '+' !in head
    ensures Cut(head + WithBuild(build), '+') == (head, build)
  {
    if build.Some? {
      CutAt(head, build.value, '+');
      assert head + WithBuild(build) == head + ['+'] + build.value;
    } else {
      CutNowhere(head, '+');
      assert head + WithBuild(build) == head;
    }
  }

  lemma PreIsCut(core: string, pre: string)
    requires '-' !in core
    ensures Cut(core + WithPre(pre), '-') == (core, if pre == "" then None else Some(pre))
  {
    if pre == "" {
      CutNowhere(core, '-');
      assert core + WithPre(pre) == core;
    } else {
      CutAt(core, pre, '-');
      assert core + WithPre(pre) == core + ['-'] + pre;
    }
  }

  lemma LeadingV(bare: string)
    requires bare != "" && bare[0] != 'v'
    ensures Match(['v'] + bare) == Match(bare)
  {
    assert (['v'] + bare)[1..] == bare;
  }

  /** What is written is read back. */
  lemma WrittenIsMatched(x: string, y: string, z: string, pre: string, build: Option<string>)
    requires IsNumber(x) && IsNumber(y) && IsNumber(z)
    requires (pre != "" ==> IsDotted(pre)) && (build.Some? ==> IsDotted(build.value))
    ensures var bare := x + ['.'] + (y + ['.'] + z) + WithPre(pre) + WithBuild(build);
            Match(bare) == Some(([x, y, z], pre)) && Match(['v'] + bare) == Some(([x, y, z], pre))
  {
    var core := x + ['.'] + (y + ['.'] + z);
    var bare := core + WithPre(pre) + WithBuild(build);
    assert bare[0] == x[0];
    LeadingV(bare);
    assert '+' !in core && '-' !in core && '+' !in pre;
    BuildIsCut(core + WithPre(pre), build);
    PreIsCut(core, pre);
    NumeralsSplit(x, y, z);
    assert forall n :: n in [x, y, z] ==> IsNumber(n);
    if pre != "" { DottedIff(pre); }
    if build.Some? { DottedIff(build.value); }
  }

  lemma ThreeParts(core: string)
    requires |Split(core, '.')| == 3
    ensures var n := Split(core, '.'); core == n[0] + ['.'] + (n[1] + ['.'] + n[2])
  {
    var n := Split(core, '.');
    JoinSplit(core, '.');
    assert n[1..] == [n[1], n[2]] && n[1..][1..] == [n[2]];
    assert Join(n[1..], '.') == n[1] + ['.'] + Join([n[2]], '.');
  }

  /** What is matched was written so. */
  lemma MatchedIsWritten(s: string, x: string, y: string, z: string, pre: string) returns (build: Option<string>)
    requires Match(s) == Some(([x, y, z], pre))
    ensures IsNumber(x) && IsNumber(y) && IsNumber(z)
    ensures (pre != "" ==> IsDotted(pre)) && (build.Some? ==> IsDotted(build.value))
    ensures var bare := x + ['.'] + (y + ['.'] + z) + WithPre(pre) + WithBuild(build);
            s == bare || s == ['v'] + bare
  {
    var bare := if s != "" && s[0] == 'v' then s[1..] else s;
    CutParts(bare, '+');
    var head := Cut(bare, '+').0;
    CutParts(head, '-');
    var core := Cut(head, '-').0;
    build := Cut(bare, '+').1;
    assert Split(core, '.') == [x, y, z];
    assert x in [x, y, z] && y in [x, y, z] && z in [x, y, z];
    ThreeParts(core);
    if Cut(head, '-').1.Some? {
      DottedIff(pre);
      assert AreIdentifiers(pre) && pre != "";
    }
    if build.Some? { DottedIff(build.value); }
    assert s != "" && s[0] == 'v' ==> s == ['v'] + bare;
  }

  lemma ParsedIsWritten(value: string, v: Version)
    requires Parsed(value) == Some(v)
    ensures IsVersionText(Trim(value), v)
  {
    var text := Trim(value);
    var numbers := Match(text).value.0;
    assert numbers == [numbers[0], numbers[1], numbers[2]];
    var build := MatchedIsWritten(text, numbers[0], numbers[1], numbers[2], v.pre);
    assert Writes(text, v, numbers[0], numbers[1], numbers[2], build);
  }

  lemma WrittenIsParsed(value: string, v: Version, x: string, y: string, z: string, build: Option<string>)
    requires Writes(Trim(value), v, x, y, z, build)
    ensures Parsed(value) == Some(v)
  {
    WrittenIsMatched(x, y, z, v.pre, build);
    if v.pre == "" { NoIdentifiers(); }
  }

  /** A text is accepted, and as version `v`, exactly when without the space
    around it it writes that version. */
  lemma ParsedIff(value: string, v: Version)
    ensures Parsed(value) == Some(v) <==> IsVersionText(Trim(value), v)
  {
    if Parsed(value) == Some(v) { ParsedIsWritten(value, v); }
    if x, y, z, build :| Writes(Trim(value), v, x, y, z, build) { WrittenIsParsed(value, v, x, y, z, build); }
  }

  lemma NoIdentifiers()
    ensures IsCanonical(Split("", '.'))
  {
  }

  // --------------------------------------------------------------- comparison

  function CompareIdentifiers(a: string, b: string): int {
    if a == b then 0
    else
      match (ParseUint(a), ParseUint(b))
      case (Some(x), Some(y)) => if x < y then -1 else 1
      case (Some(_), None) => -1
      case (None, Some(_)) => 1
      case (None, None) => if Less(a, b) then -1 else 1
  }

  function CompareLists(a: seq<string>, b: seq<string>): int {
    if a == [] || b == [] then (if a != [] then 1 else if b != [] then -1 else 0)
    else if a[0] == b[0] then CompareLists(a[1..], b[1..])
    else CompareIdentifiers(a[0], b[0])
  }

  /** compareAdminPrerelease */
  method ComparePrerelease(left: string, right: string) returns (r: int)
    ensures r == CompareLists(Split(left, '.'), Split(right, '.'))
  {
    var a, b := Split(left, '.'), Split(right, '.');
    var i := 0;
    while i < |a| && i < |b|
      invariant i <= |a| && i <= |b|
      invariant CompareLists(a, b) == CompareLists(a[i..], b[i..])
    {
      assert a[i..][1..] == a[i + 1..] && b[i..][1..] == b[i + 1..];
      if a[i] != b[i] {
        var x, y := ParseUint(a[i]), ParseUint(b[i]);
        if x.Some? && y.Some? {
          return if x.value < y.value then -1 else 1;
        }
        if x.Some? {
          return -1;
        }
        if y.Some? {
          return 1;
        }
        return if Less(a[i], b[i]) then -1 else 1;
      }
      i := i + 1;
    }
    if |a| < |b| {
      return -1;
    }
    if |a| > |b| {
      return 1;
    }
    r := 0;
  }

  function Sign(d: int): int {
    if d < 0 then -1 else if d > 0 then 1 else 0
  }

  function Order(l: Version, r: Version): int {
    if l.major != r.major then Sign(l.major - r.major)
    else if l.minor != r.minor then Sign(l.minor - r.minor)
    else if l.patch != r.patch then Sign(l.patch - r.patch)
    else if l.pre == r.pre then 0
    else if l.pre == "" then 1
    else if r.pre == "" then -1
    else CompareLists(Split(l.pre, '.'), Split(r.pre, '.'))
  }

  /** compareAdminSemver */
  method Compare(left: Version, right: Version) returns (r: int)
    ensures r == Order(left, right)
  {
    var pairs := [(left.major, right.major), (left.minor, right.minor), (left.patch, right.patch)];
    for i := 0 to 3
      invariant forall j :: 0 <= j < i ==> pairs[j].0 == pairs[j].1
    {
      assert i == 0 || i == 1 || i == 2;
      assert i > 0 ==> left.major == pairs[0].0 == pairs[0].1 == right.major;
      assert i > 1 ==> left.minor == pairs[1].0 == pairs[1].1 == right.minor;
      if pairs[i].0 < pairs[i].1 {
        return -1;
      }
      if pairs[i].0 > pairs[i].1 {
        return 1;
      }
    }
    assert pairs[0].0 == pairs[0].1 && pairs[1].0 == pairs[1].1 && pairs[2].0 == pairs[2].1;
    if left.pre == right.pre {
      return 0;
    }
    if left.pre == "" {
      return 1;
    }
    if right.pre == "" {
      return -1;
    }
    r := ComparePrerelease(left.pre, right.pre);
  }

  // -------------------------------------------------------------- total order

  /** Without spare zeros, numerals with equal values are equal. */
  lemma {:induction false} ValueDecides(a: string, b: string)
    requires AllDigits(a) && AllDigits(b) && a != "" && b != "" && Value(a) == Value(b)
    requires (|a| > 1 ==> a[0] != '0') && (|b| > 1 ==> b[0] != '0')
    ensures a == b
  {
    var x, y := a[..|a| - 1], b[..|b| - 1];
    assert Value(x) == Value(y) && a[|a| - 1] == b[|b| - 1];
    if x != "" && y != "" {
      ValueDecides(x, y);
    } else if x != "" {
      PositiveValue(x);
    } else if y != "" {
      PositiveValue(y);
    }
    assert a == x + [a[|a| - 1]] && b == y + [b[|b| - 1]];
  }

  lemma {:induction false} PositiveValue(s: string)
    requires AllDigits(s) && s != "" && s[0] != '0'
    ensures Value(s) > 0
  {
    if |s| > 1 { PositiveValue(s[..|s| - 1]); }
  }

  lemma IdentifiersAntisymmetric(a: string, b: string)
    requires !HasSpareZero(a) && !HasSpareZero(b)
    ensures CompareIdentifiers(a, b) == -CompareIdentifiers(b, a)
    ensures CompareIdentifiers(a, b) == 0 <==> a == b
  {
    LessIsTotal(a, b);
    if ParseUint(a).Some? && ParseUint(b).Some? && Value(a) == Value(b) { ValueDecides(a, b); }
  }

  lemma IdentifiersTransitive(a: string, b: string, c: string)
    requires !HasSpareZero(a) && !HasSpareZero(b) && !HasSpareZero(c)
    requires CompareIdentifiers(a, b) <= 0 && CompareIdentifiers(b, c) <= 0
    ensures CompareIdentifiers(a, c) <= 0
    ensures CompareIdentifiers(a, c) == 0 ==> a == b == c
  {
    LessIsTotal(a, b);
    LessIsTotal(b, c);
    LessIsTotal(a, c);
    if Less(a, b) && Less(b, c) { LessIsTransitive(a, b, c); }
    if ParseUint(a).Some? && ParseUint(c).Some? && Value(a) == Value(c) { ValueDecides(a, c); }
  }

  lemma {:induction false} ListsAntisymmetric(a: seq<string>, b: seq<string>)
    requires IsCanonical(a) && IsCanonical(b)
    ensures CompareLists(a, b) == -CompareLists(b, a)
    ensures CompareLists(a, b) == 0 <==> a == b
  {
    if a == [] || b == [] {
    } else {
      IdentifiersAntisymmetric(a[0], b[0]);
      ListsAntisymmetric(a[1..], b[1..]);
      assert a == [a[0]] + a[1..] && b == [b[0]] + b[1..];
    }
  }

  lemma {:induction false} ListsTransitive(a: seq<string>, b: seq<string>, c: seq<string>)
    requires IsCanonical(a) && IsCanonical(b) && IsCanonical(c)
    requires CompareLists(a, b) <= 0 && CompareLists(b, c) <= 0
    ensures CompareLists(a, c) <= 0
  {
    if a != [] && b != [] && c != [] {
      if a[0] == b[0] == c[0] {
        ListsTransitive(a[1..], b[1..], c[1..]);
      } else {
        IdentifiersAntisymmetric(a[0], b[0]);
        IdentifiersAntisymmetric(b[0], c[0]);
        IdentifiersTransitive(a[0], b[0], c[0]);
      }
    }
  }

  /** What the parser returns. */
  ghost predicate IsParsed(v: Version) {
    exists value :: Parsed(value) == Some(v)
  }

  lemma SplitDecides(a: string, b: string)
    requires Split(a, '.') == Split(b, '.')
    ensures a == b
  {
    JoinSplit(a, '.');
    JoinSplit(b, '.');
  }

  /** On parsed versions the comparison is antisymmetric, and it gives zero only
    for equal versions. */
  lemma OrderIsAntisymmetric(a: Version, b: Version)
    requires IsParsed(a) && IsParsed(b)
    ensures Order(a, b) == -Order(b, a)
    ensures Order(a, b) == 0 <==> a == b
  {
    ListsAntisymmetric(Split(a.pre, '.'), Split(b.pre, '.'));
    if Split(a.pre, '.') == Split(b.pre, '.') { SplitDecides(a.pre, b.pre); }
  }

  lemma OrderIsTransitive(a: Version, b: Version, c: Version)
    requires IsParsed(a) && IsParsed(b) && IsParsed(c)
    requires Order(a, b) <= 0 && Order(b, c) <= 0
    ensures Order(a, c) <= 0
  {
    var x, y, z := Split(a.pre, '.'), Split(b.pre, '.'), Split(c.pre, '.');
    if CompareLists(x, y) <= 0 && CompareLists(y, z) <= 0 { ListsTransitive(x, y, z); }
  }

  /** Antisymmetry rests on the parser: the comparison itself puts "1" and "01"
    after each other. */
  lemma SpareZeroBreaksOrder()
    ensures var a, b := Version(1, 0, 0, "1"), Version(1, 0, 0, "01");
            Order(a, b) == 1 && Order(b, a) == 1 && !IsParsed(b)
  {
    var one, zeroOne := "1", "01";
    SplitWhole(one, '.');
    SplitWhole(zeroOne, '.');
    assert zeroOne[..1] == "0" && "0"[..0] == "" && one[..0] == "";
    assert Value("0") == 0 && Value("1") == 1 && Value("01") == 1;
    assert HasSpareZero("01") && !IsCanonical(["01"]) by { assert HasSpareZero(["01"][0]); }
  }

  // -------------------------------------- Semantic Versioning 2.0.0, item 11

  predicate IsNumericIdentifier(s: string) {
    s != "" && AllDigits(s)
  }

  /** Items 11.4.1 to 11.4.3: numeric identifiers numerically, others by their
    ASCII order, and numeric ones first. */
  ghost predicate IdentifierPrecedes(a: string, b: string) {
    if IsNumericIdentifier(a) && IsNumericIdentifier(b) then Value(a) < Value(b)
    else if IsNumericIdentifier(a) || IsNumericIdentifier(b) then IsNumericIdentifier(a)
    else Less(a, b)
  }

  /** Item 11.4: the first differing identifier decides; failing that, the larger
    set of fields is higher (11.4.4). */
  ghost predicate FieldsPrecede(a: seq<string>, b: seq<string>) {
    || (|a| < |b| && a == b[..|a|])
    || exists i :: 0 <= i < |a| && i < |b| && a[..i] == b[..i] && a[i] != b[i] && IdentifierPrecedes(a[i], b[i])
  }

  /** Items 11.2 and 11.3. */
  ghost predicate Precedes(a: Version, b: Version) {
    || a.major < b.major
    || (a.major == b.major && a.minor < b.minor)
    || (a.major == b.major && a.minor == b.minor && a.patch < b.patch)
    || (a.major == b.major && a.minor == b.minor && a.patch == b.patch
        && (if a.pre == "" then false else if b.pre == "" then true
            else FieldsPrecede(Split(a.pre, '.'), Split(b.pre, '.'))))
  }

  // ------------------------------------------- where the comparison departs

  predicate Overflows(s: string) {
    IsNumericIdentifier(s) && Value(s) >= UINT64_LIMIT
  }

  /** Identifiers of more than 64 bits are compared as text. That is wrong for two
    of them when the text is not in the order of the values, and for one against
    an identifier with a letter or hyphen when the latter comes first as text. */
  predicate Misordered(a: string, b: string) {
    if Overflows(a) && Overflows(b) then Less(a, b) != (Value(a) < Value(b))
    else if Overflows(a) then !IsNumericIdentifier(b) && Less(b, a)
    else Overflows(b) && !IsNumericIdentifier(a) && Less(a, b)
  }

  lemma IdentifiersDisagreeIff(a: string, b: string)
    requires a != "" && b != "" && a != b && !HasSpareZero(a) && !HasSpareZero(b)
    ensures (CompareIdentifiers(a, b) < 0) != IdentifierPrecedes(a, b) <==> Misordered(a, b)
  {
    LessIsTotal(a, b);
  }

  /** The first position at which the lists differ. */
  ghost predicate DifferAt(a: seq<string>, b: seq<string>, i: int) {
    0 <= i < |a| && i < |b| && a[..i] == b[..i] && a[i] != b[i]
  }

  lemma SameBefore(a: seq<string>, b: seq<string>, i: int)
    requires DifferAt(a, b, i)
    ensures forall k :: 0 <= k < i ==> a[k] == b[k]
    ensures i > 0 ==> DifferAt(a[1..], b[1..], i - 1)
  {
    forall k | 0 <= k < i ensures a[k] == b[k] { assert a[..i][k] == b[..i][k]; }
    if i > 0 { assert a[1..][..i - 1] == a[..i][1..] && b[1..][..i - 1] == b[..i][1..]; }
  }

  lemma {:induction false} FirstDifferenceDecides(a: seq<string>, b: seq<string>, i: int)
    requires DifferAt(a, b, i)
    ensures CompareLists(a, b) == CompareIdentifiers(a[i], b[i])
    ensures FieldsPrecede(a, b) <==> IdentifierPrecedes(a[i], b[i])
  {
    SameBefore(a, b, i);
    OnlyDifference(a, b, i);
    if i == 0 {
    } else {
      FirstDifferenceDecides(a[1..], b[1..], i - 1);
    }
  }

  lemma OnlyDifference(a: seq<string>, b: seq<string>, i: int)
    requires DifferAt(a, b, i)
    ensures forall j :: DifferAt(a, b, j) ==> j == i
    ensures !(|a| < |b| && a == b[..|a|])
    ensures FieldsPrecede(a, b) <==> IdentifierPrecedes(a[i], b[i])
  {
    SameBefore(a, b, i);
    forall j | DifferAt(a, b, j) ensures j == i { SameBefore(a, b, j); }
    assert forall j :: DifferAt(a, b, j) <==> 0 <= j < |a| && j < |b| && a[..j] == b[..j] && a[j] != b[j];
    assert |a| < |b| ==> b[..|a|][i] == b[i];
  }

  lemma {:induction false} PrefixDecides(a: seq<string>, b: seq<string>)
    requires forall i :: !DifferAt(a, b, i)
    ensures CompareLists(a, b) < 0 <==> FieldsPrecede(a, b)
  {
    forall i | 0 <= i < |a| && i < |b| && a[..i] == b[..i] ensures a[i] == b[i] { assert !DifferAt(a, b, i); }
    if a == [] || b == [] {
    } else {
      assert !DifferAt(a, b, 0);
      forall i | 0 <= i < |a| - 1 && i < |b| - 1 && a[1..][..i] == b[1..][..i] ensures a[1..][i] == b[1..][i] {
        assert a[..i + 1] == [a[0]] + a[1..][..i] && b[..i + 1] == [b[0]] + b[1..][..i];
        assert !DifferAt(a, b, i + 1);
      }
      PrefixDecides(a[1..], b[1..]);
      assert a == [a[0]] + a[1..] && b == [b[0]] + b[1..];
      if |a| < |b| && a == b[..|a|] { assert a[1..] == b[..|a|][1..] == b[1..][..|a| - 1]; }
      if |a| < |b| && a[1..] == b[1..][..|a| - 1] { assert b[..|a|] == [b[0]] + b[1..][..|a| - 1]; }
    }
  }

  /** The versions have the same three numbers, and the first identifiers in which
    they differ are out of order. */
  ghost predicate MisorderedVersions(a: Version, b: Version) {
    && (a.major, a.minor, a.patch) == (b.major, b.minor, b.patch) && a.pre != "" && b.pre != ""
    && exists i :: DifferAt(Split(a.pre, '.'), Split(b.pre, '.'), i)
                   && Misordered(Split(a.pre, '.')[i], Split(b.pre, '.')[i])
  }

  lemma ListsDisagreeIff(a: seq<string>, b: seq<string>)
    requires IsCanonical(a) && IsCanonical(b) && "" !in a && "" !in b
    ensures (CompareLists(a, b) < 0) != FieldsPrecede(a, b) <==> exists i :: DifferAt(a, b, i) && Misordered(a[i], b[i])
  {
    if i :| DifferAt(a, b, i) {
      FirstDifferenceDecides(a, b, i);
      OnlyDifference(a, b, i);
      IdentifiersDisagreeIff(a[i], b[i]);
    } else {
      PrefixDecides(a, b);
    }
  }

  lemma ParsedIdentifiers(v: Version)
    requires IsParsed(v)
    ensures IsCanonical(Split(v.pre, '.')) && (v.pre != "" ==> AreIdentifiers(v.pre))
  {
  }

  /** On parsed versions the comparison departs from the standard's precedence
    exactly there. */
  lemma DisagreesIff(a: Version, b: Version)
    requires IsParsed(a) && IsParsed(b)
    ensures (Order(a, b) < 0) != Precedes(a, b) <==> MisorderedVersions(a, b)
  {
    var x, y := Split(a.pre, '.'), Split(b.pre, '.');
    ParsedIdentifiers(a);
    ParsedIdentifiers(b);
    if a.pre == b.pre {
      forall i ensures !DifferAt(x, y, i) { }
      PrefixDecides(x, y);
    } else if a.pre != "" && b.pre != "" {
      ListsDisagreeIff(x, y);
    }
  }

  /** Every numeric identifier fits in 64 bits. */
  ghost predicate Fits(identifiers: seq<string>) {
    forall i :: 0 <= i < |identifiers| ==> !Overflows(identifiers[i])
  }

  /** So the comparison is the precedence of the standard, as long as numeric
    identifiers fit in 64 bits. */
  lemma AgreesWithStandard(a: Version, b: Version)
    requires IsParsed(a) && IsParsed(b) && Fits(Split(a.pre, '.')) && Fits(Split(b.pre, '.'))
    ensures Order(a, b) < 0 <==> Precedes(a, b)
    ensures Order(a, b) > 0 <==> Precedes(b, a)
    ensures Order(a, b) == 0 <==> a == b
  {
    OrderIsAntisymmetric(a, b);
    DisagreesIff(a, b);
    DisagreesIff(b, a);
  }

  // --------------------------------------------- versions that are misordered

  lemma TrimsNothing(s: string)
    requires s != "" && !IsSpace(s[0]) && !IsSpace(s[|s| - 1])
    ensures Trim(s) == s
  {
  }

  /** Every identifier without a spare zero is the pre-release part of a version
    that the parser accepts. */
  lemma IdentifierIsParsed(pre: string)
    requires IsIdentifier(pre) && !HasSpareZero(pre)
    ensures IsParsed(Version(1, 0, 0, pre)) && Split(pre, '.') == [pre]
  {
    var bare := "1" + ['.'] + ("0" + ['.'] + "0") + WithPre(pre) + WithBuild(None);
    assert bare[0] == '1' && bare[|bare| - 1] == pre[|pre| - 1];
    TrimsNothing(bare);
    assert '.' !in pre;
    OneIdentifier(pre);
    SplitWhole(pre, '.');
    OneAndZero();
    assert IsCanonical([pre]);
    WrittenIsParsed(bare, Version(1, 0, 0, pre), "1", "0", "0", None);
  }

  lemma OneAndZero()
    ensures IsNumeral("1", 1) && IsNumeral("0", 0)
  {
    assert "1"[..0] == "" && "0"[..0] == "";
  }

  function Repeat(c: char, n: nat): string {
    if n == 0 then "" else Repeat(c, n - 1) + [c]
  }

  function Pow10(n: nat): nat {
    if n == 0 then 1 else 10 * Pow10(n - 1)
  }

  lemma {:induction false} NinesAreDigits(n: nat)
    ensures AllDigits(Repeat('9', n))
    ensures n > 0 ==> Repeat('9', n) != "" && Repeat('9', n)[0] == '9'
  {
    if n == 0 {
    } else {
      NinesAreDigits(n - 1);
    }
  }

  lemma {:induction false} Nines(n: nat)
    requires AllDigits(Repeat('9', n))
    ensures Value(Repeat('9', n)) == Pow10(n) - 1
  {
    if n == 0 {
    } else {
      var r := Repeat('9', n - 1);
      NinesAreDigits(n - 1);
      Nines(n - 1);
      assert (r + ['9'])[..|r|] == r;
    }
  }

  lemma {:induction false} OneAndZeros(n: nat)
    ensures AllDigits("1" + Repeat('0', n)) && Value("1" + Repeat('0', n)) == Pow10(n)
  {
    var s := "1" + Repeat('0', n);
    if n == 0 {
      assert s == "1" && s[..0] == "";
    } else {
      OneAndZeros(n - 1);
      assert s[..|s| - 1] == "1" + Repeat('0', n - 1);
    }
  }

  lemma {:induction false} Pow10Grows(m: nat, n: nat)
    requires m <= n
    ensures Pow10(m) <= Pow10(n)
  {
    if m < n { Pow10Grows(m, n - 1); }
  }

  lemma HyphenIsIdentifier()
    ensures IsIdentifier("-x") && !IsNumericIdentifier("-x")
  {
    assert !IsDigit("-x"[0]);
  }

  /** 10^n as text comes before 10^n - 1, and after "-x". */
  lemma LargeIdentifiers(n: nat)
    requires n >= 20
    ensures var a, b := "1" + Repeat('0', n), Repeat('9', n);
            && IsIdentifier(a) && IsIdentifier(b) && Overflows(a) && Overflows(b) && Value(b) < Value(a) && Less(a, b)
            && Less("-x", a)
  {
    NinesAreDigits(n);
    Nines(n);
    OneAndZeros(n);
    Pow10Grows(20, n);
    assert Pow10(20) == 100_000_000_000_000_000_000 by {
      assert Pow10(5) == 100_000;
      assert Pow10(10) == 10_000_000_000;
      assert Pow10(15) == 1_000_000_000_000_000;
    }
  }

  lemma OneFieldDecides(a: string, b: string)
    requires IsIdentifier(a) && IsIdentifier(b) && !HasSpareZero(a) && !HasSpareZero(b) && a != b
    ensures var v, w := Version(1, 0, 0, a), Version(1, 0, 0, b);
            && IsParsed(v) && IsParsed(w)
            && Order(v, w) == CompareIdentifiers(a, b) && (Precedes(v, w) <==> IdentifierPrecedes(a, b))
  {
    IdentifierIsParsed(a);
    IdentifierIsParsed(b);
    assert DifferAt([a], [b], 0);
    FirstDifferenceDecides([a], [b], 0);
  }

  lemma IdentifiersDisagree(a: string, b: string, x: string)
    requires IsIdentifier(a) && IsIdentifier(b) && Overflows(a) && Overflows(b) && Value(b) < Value(a) && Less(a, b)
    requires IsIdentifier(x) && !IsNumericIdentifier(x) && Less(x, a)
    ensures var v, w, y := Version(1, 0, 0, a), Version(1, 0, 0, b), Version(1, 0, 0, x);
            && IsParsed(v) && IsParsed(w) && IsParsed(y)
            && Order(v, w) < 0 && Precedes(w, v) && !Precedes(v, w)
            && Order(y, v) < 0 && Precedes(v, y) && !Precedes(y, v)
  {
    LessIsTotal(a, b);
    OneFieldDecides(a, b);
    OneFieldDecides(b, a);
    OneFieldDecides(x, a);
    OneFieldDecides(a, x);
  }

  /** Accepted versions that are put in the wrong order, for every n from 20 on:
    1.0.0-10^n before 1.0.0-(10^n - 1), and 1.0.0--x before 1.0.0-10^n. */
  lemma LargeIdentifiersDisagree(n: nat)
    requires n >= 20
    ensures var a, b, x := Version(1, 0, 0, "1" + Repeat('0', n)), Version(1, 0, 0, Repeat('9', n)),
                           Version(1, 0, 0, "-x");
            && IsParsed(a) && IsParsed(b) && IsParsed(x)
            && Order(a, b) < 0 && Precedes(b, a) && !Precedes(a, b)
            && Order(x, a) < 0 && Precedes(a, x) && !Precedes(x, a)
  {
    var a, b, x := "1" + Repeat('0', n), Repeat('9', n), "-x";
    LargeIdentifiers(n);
    HyphenIsIdentifier();
    IdentifiersDisagree(a, b, x);
  }
}
