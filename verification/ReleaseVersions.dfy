/** Reading release versions and putting them in order. */
module ReleaseVersions {
  import opened Common

  // ---------------------------------------------------------------- numbers as text

  predicate Digit(c: char) {
    '0' <= c <= '9'
  }

  predicate Digits(s: string) {
    forall i :: 0 <= i < |s| ==> Digit(s[i])
  }

  /** A number without superfluous zeros. */
  predicate Canonical(s: string) {
    s != "" && Digits(s) && (s[0] == '0' ==> |s| == 1)
  }

  function DigitValue(c: char): int {
    (c as int) - ('0' as int)
  }

  function Value(s: string): int {
    if s == "" then 0 else Value(s[..|s| - 1]) * 10 + DigitValue(s[|s| - 1])
  }

  function Power(n: nat): nat {
    if n == 0 then 1 else Power(n - 1) * 10
  }

  lemma {:induction false} LeadingDigit(s: string)
    requires s != ""
    ensures Value(s) == DigitValue(s[0]) * Power(|s| - 1) + Value(s[1..])
  {
    var n := |s| - 1;
    if n == 0 {
      assert s[..0] == "" && s[1..] == "";
    } else {
      LeadingDigit(s[..n]);
      assert s[..n][1..] == s[1..][..n - 1];
      assert Power(n) == Power(n - 1) * 10;
    }
  }

  lemma {:induction false} ValueBounds(s: string)
    requires Digits(s)
    ensures 0 <= Value(s) < Power(|s|)
  {
    if s != "" {
      ValueBounds(s[..|s| - 1]);
    }
  }

  lemma AtLeastOnce(a: int, p: nat)
    requires a >= 1
    ensures a * p >= p
  {
  }

  lemma CanonicalAtLeast(s: string)
    requires Canonical(s) && |s| > 1
    ensures Value(s) >= Power(|s| - 1)
  {
    LeadingDigit(s);
    ValueBounds(s[1..]);
    AtLeastOnce(DigitValue(s[0]), Power(|s| - 1));
  }

  lemma {:induction false} PowerGrows(m: nat, n: nat)
    requires m <= n
    ensures Power(m) <= Power(n)
  {
    if m < n {
      PowerGrows(m, n - 1);
    }
  }

  /** Text order: the first difference decides, then the length. */
  function CompareText(a: string, b: string): int {
    if a == "" || b == "" then (if a == b then 0 else if a == "" then -1 else 1)
    else if a[0] < b[0] then -1
    else if a[0] > b[0] then 1
    else CompareText(a[1..], b[1..])
  }

  function CompareNumber(a: string, b: string): int {
    if |a| < |b| then -1 else if |a| > |b| then 1 else CompareText(a, b)
  }

  function Sign(n: int): int {
    if n < 0 then -1 else if n > 0 then 1 else 0
  }

  lemma {:induction false} SameLengthOrder(a: string, b: string)
    requires Digits(a) && Digits(b) && |a| == |b|
    ensures CompareText(a, b) == Sign(Value(a) - Value(b))
  {
    if a != "" {
      LeadingDigit(a);
      LeadingDigit(b);
      ValueBounds(a[1..]);
      ValueBounds(b[1..]);
      var p := Power(|a| - 1);
      if a[0] == b[0] {
        SameLengthOrder(a[1..], b[1..]);
      } else if a[0] < b[0] {
        StepsApart(DigitValue(a[0]), DigitValue(b[0]), p);
      } else {
        StepsApart(DigitValue(b[0]), DigitValue(a[0]), p);
      }
    }
  }

  lemma StepsApart(a: int, b: int, p: nat)
    requires a < b
    ensures (a + 1) * p <= b * p && (a + 1) * p == a * p + p
  {
  }

  /** On numbers written canonically, however long, comparing the texts is comparing the numbers. */
  lemma NumbersCompareAsNumbers(a: string, b: string)
    requires Canonical(a) && Canonical(b)
    ensures CompareNumber(a, b) == Sign(Value(a) - Value(b))
  {
    if |a| == |b| {
      SameLengthOrder(a, b);
    } else if |a| < |b| {
      ShorterIsSmaller(a, b);
    } else {
      ShorterIsSmaller(b, a);
    }
  }

  lemma ShorterIsSmaller(a: string, b: string)
    requires Canonical(a) && Canonical(b) && |a| < |b|
    ensures Value(a) < Value(b)
  {
    ValueBounds(a);
    CanonicalAtLeast(b);
    PowerGrows(|a|, |b| - 1);
  }

  lemma {:induction false} SameText(a: string, b: string)
    ensures CompareText(a, b) == 0 <==> a == b
  {
    if a != "" && b != "" {
      SameText(a[1..], b[1..]);
      assert a == [a[0]] + a[1..] && b == [b[0]] + b[1..];
    }
  }

  lemma SameValueSameText(a: string, b: string)
    requires Canonical(a) && Canonical(b)
    ensures Value(a) == Value(b) <==> a == b
  {
    NumbersCompareAsNumbers(a, b);
    SameText(a, b);
  }

  // ---------------------------------------------------------------- the pattern

  /** The four groups of the pattern; the third and the fourth are empty when they are left out. */
  datatype Groups = Groups(major: string, minor: string, patch: string, revision: string) {
    predicate Valid() {
      Canonical(major) && Canonical(minor) && (patch == "" || Canonical(patch))
      && (revision == "" || Canonical(revision))
    }
  }

  function RevisionText(revision: string): string {
    if revision == "" then "" else "-yz." + revision
  }

  function TailText(patch: string, revision: string): string {
    (if patch == "" then "" else "." + patch) + RevisionText(revision)
  }

  function BodyText(g: Groups): string {
    g.major + ("." + (g.minor + TailText(g.patch, g.revision)))
  }

  /** The texts the pattern accepts. */
  function Render(prefixed: bool, g: Groups): string {
    if prefixed then "v" + BodyText(g) else BodyText(g)
  }

  /** The longest run of digits at the front. */
  function Run(s: string): (d: string)
    ensures |d| <= |s| && d == s[..|d|] && Digits(d) && (|d| < |s| ==> !Digit(s[|d|]))
  {
    if s == "" || !Digit(s[0]) then "" else [s[0]] + Run(s[1..])
  }

  /** A number at the front and what follows it. */
  function Number(s: string): (r: Option<(string, string)>)
    ensures r.Some? ==> Canonical(r.value.0) && s == r.value.0 + r.value.1
  {
    var d := Run(s);
    if Canonical(d) then Some((d, s[|d|..])) else None
  }

  function After(s: string, prefix: string): (r: Option<string>)
    ensures r.Some? <==> prefix <= s
    ensures r.Some? ==> s == prefix + r.value
  {
    if prefix <= s then Some(s[|prefix|..]) else None
  }

  function ParseRevision(s: string): Option<string> {
    if s == "" then Some("")
    else
      var rest := After(s, "-yz.");
      if rest.None? then None
      else
        var n := Number(rest.value);
        if n.Some? && n.value.1 == "" then Some(n.value.0) else None
  }

  /** What follows the first two numbers. */
  function ParseTail(s: string): Option<(string, string)> {
    var rest := After(s, ".");
    if rest.None? then
      var revision := ParseRevision(s);
      if revision.Some? then Some(("", revision.value)) else None
    else
      var patch := Number(rest.value);
      if patch.None? then None
      else
        var revision := ParseRevision(patch.value.1);
        if revision.Some? then Some((patch.value.0, revision.value)) else None
  }

  /** What follows the first number. */
  function ParseMinor(s: string): Option<(string, string, string)> {
    var rest := After(s, ".");
    if rest.None? then None
    else
      var minor := Number(rest.value);
      if minor.None? then None
      else
        var tail := ParseTail(minor.value.1);
        if tail.None? then None else Some((minor.value.0, tail.value.0, tail.value.1))
  }

  function ParseBody(s: string): Option<Groups> {
    var major := Number(s);
    if major.None? then None
    else
      var rest := ParseMinor(major.value.1);
      if rest.None? then None else Some(Groups(major.value.0, rest.value.0, rest.value.1, rest.value.2))
  }

  function Parse(s: string): Option<Groups> {
    ParseBody(if "v" <= s then s[1..] else s)
  }

  lemma {:induction false} RunStops(d: string, rest: string)
    requires Digits(d) && (rest != "" ==> !Digit(rest[0]))
    ensures Run(d + rest) == d
  {
    if d == "" {
      assert d + rest == rest;
    } else {
      assert (d + rest)[1..] == d[1..] + rest;
      RunStops(d[1..], rest);
    }
  }

  lemma NumberReads(d: string, rest: string)
    requires Canonical(d) && (rest != "" ==> !Digit(rest[0]))
    ensures Number(d + rest) == Some((d, rest))
  {
    RunStops(d, rest);
    assert (d + rest)[|d|..] == rest;
  }

  lemma AfterReads(prefix: string, rest: string)
    ensures After(prefix + rest, prefix) == Some(rest)
  {
    assert (prefix + rest)[|prefix|..] == rest;
  }

  lemma RevisionReads(revision: string)
    requires revision == "" || Canonical(revision)
    ensures ParseRevision(RevisionText(revision)) == Some(revision)
  {
    if revision != "" {
      AfterReads("-yz.", revision);
      NumberReads(revision, "");
      assert revision + "" == revision;
    }
  }

  lemma TailReads(patch: string, revision: string)
    requires (patch == "" || Canonical(patch)) && (revision == "" || Canonical(revision))
    ensures ParseTail(TailText(patch, revision)) == Some((patch, revision))
  {
    RevisionReads(revision);
    var text := RevisionText(revision);
    if patch == "" {
      assert TailText(patch, revision) == text;
      assert text != "" ==> text[0] == '-';
    } else {
      assert TailText(patch, revision) == "." + (patch + text);
      AfterReads(".", patch + text);
      NumberReads(patch, text);
    }
  }

  lemma BodyReads(g: Groups)
    requires g.Valid()
    ensures ParseBody(BodyText(g)) == Some(g)
  {
    var tail := TailText(g.patch, g.revision);
    MinorReads(g);
    NumberReads(g.major, "." + (g.minor + tail));
  }

  lemma MinorReads(g: Groups)
    requires g.Valid()
    ensures ParseMinor("." + (g.minor + TailText(g.patch, g.revision))) == Some((g.minor, g.patch, g.revision))
  {
    var tail := TailText(g.patch, g.revision);
    AfterReads(".", g.minor + tail);
    TailReads(g.patch, g.revision);
    assert tail != "" ==> tail[0] == '.' || tail[0] == '-';
    NumberReads(g.minor, tail);
  }

  lemma BodyStartsWithDigit(g: Groups)
    requires g.Valid()
    ensures !("v" <= BodyText(g)) && ("v" + BodyText(g))[1..] == BodyText(g)
  {
    assert BodyText(g)[0] == g.major[0] && Digit(g.major[0]);
  }

  lemma ParseReads(prefixed: bool, g: Groups)
    requires g.Valid()
    ensures Parse(Render(prefixed, g)) == Some(g)
  {
    BodyStartsWithDigit(g);
    BodyReads(g);
  }

  lemma RevisionOnly(s: string)
    requires ParseRevision(s).Some?
    ensures s == RevisionText(ParseRevision(s).value)
            && (ParseRevision(s).value == "" || Canonical(ParseRevision(s).value))
  {
  }

  lemma TailOnly(s: string)
    requires ParseTail(s).Some?
    ensures s == TailText(ParseTail(s).value.0, ParseTail(s).value.1)
    ensures ParseTail(s).value.0 == "" || Canonical(ParseTail(s).value.0)
    ensures ParseTail(s).value.1 == "" || Canonical(ParseTail(s).value.1)
  {
    var rest := After(s, ".");
    if rest.None? {
      RevisionOnly(s);
    } else {
      RevisionOnly(Number(rest.value).value.1);
    }
  }

  lemma MinorOnly(s: string)
    requires ParseMinor(s).Some?
    ensures var r := ParseMinor(s).value;
            s == "." + (r.0 + TailText(r.1, r.2)) && Canonical(r.0) && (r.1 == "" || Canonical(r.1))
            && (r.2 == "" || Canonical(r.2))
  {
    TailOnly(Number(After(s, ".").value).value.1);
  }

  lemma BodyOnly(s: string)
    requires ParseBody(s).Some?
    ensures ParseBody(s).value.Valid() && s == BodyText(ParseBody(s).value)
  {
    MinorOnly(Number(s).value.1);
  }

  lemma ParseOnly(s: string)
    requires Parse(s).Some?
    ensures Parse(s).value.Valid() && s == Render("v" <= s, Parse(s).value)
  {
    if "v" <= s {
      BodyOnly(s[1..]);
      assert s == "v" + s[1..];
    } else {
      BodyOnly(s);
    }
  }

  /** Exactly the texts of the pattern are read, and each is read as what it was written from. */
  lemma ParsesExactlyThePattern(s: string, g: Groups)
    ensures Parse(s) == Some(g) <==> g.Valid() && (s == Render(false, g) || s == Render(true, g))
  {
    if Parse(s).Some? {
      ParseOnly(s);
    }
    if g.Valid() {
      ParseReads(false, g);
      ParseReads(true, g);
    }
  }

  // ---------------------------------------------------------------- the order of versions

  /** A version as numbers; without a revision it comes after every revision. */
  datatype Key = Key(major: int, minor: int, patch: int, revision: Option<int>)

  function KeyOf(g: Groups): Key {
    Key(Value(g.major), Value(g.minor), if g.patch == "" then 0 else Value(g.patch), if g.revision == "" then None
                                                                                     else Some(Value(g.revision)))
  }

  predicate RevisionBefore(a: Option<int>, b: Option<int>) {
    a.Some? && (b.None? || a.value < b.value)
  }

  predicate Precedes(a: Key, b: Key) {
    || a.major < b.major
    || (a.major == b.major && a.minor < b.minor)
    || (a.major == b.major && a.minor == b.minor && a.patch < b.patch)
    || (a.major == b.major && a.minor == b.minor && a.patch == b.patch && RevisionBefore(a.revision, b.revision))
  }

  /** Of any two versions one comes first, or they are the same; and coming first is transitive. */
  lemma PrecedesIsAnOrder(a: Key, b: Key, c: Key)
    ensures (Precedes(a, b) || Precedes(b, a)) <==> a != b
    ensures !(Precedes(a, b) && Precedes(b, a))
    ensures Precedes(a, b) && Precedes(b, c) ==> Precedes(a, c)
  {
    assert a.revision != b.revision ==>
              RevisionBefore(a.revision, b.revision) || RevisionBefore(b.revision, a.revision);
  }

  datatype VersionError = CurrentInvalid | LatestInvalid | QueryFailed

  function Padded(part: string): string {
    if part == "" then "0" else part
  }

  lemma PaddedValue(part: string)
    requires part == "" || Canonical(part)
    ensures Canonical(Padded(part)) && Value(Padded(part)) == if part == "" then 0 else Value(part)
  {
    assert "0"[..0] == "";
  }

  /** The groups in the order of the pattern. */
  function Listed(g: Groups): seq<string> {
    [g.major, g.minor, g.patch, g.revision]
  }

  /** What the comparison of two versions must answer. */
  predicate Compares(a: Key, b: Key, cmp: int) {
    && (cmp == -1 <==> Precedes(a, b)) && (cmp == 1 <==> Precedes(b, a)) && (cmp == 0 <==> a == b)
  }

  lemma RevisionsCompare(a: Groups, b: Groups)
    requires a.Valid() && b.Valid() && a.revision != "" && b.revision != ""
    ensures a.revision == b.revision <==> KeyOf(a).revision == KeyOf(b).revision
    ensures CompareNumber(a.revision, b.revision) == Sign(Value(a.revision) - Value(b.revision))
  {
    SameValueSameText(a.revision, b.revision);
    NumbersCompareAsNumbers(a.revision, b.revision);
  }

  function Numbers(k: Key): seq<int> {
    [k.major, k.minor, k.patch]
  }

  lemma PartIsNumber(g: Groups, i: nat)
    requires g.Valid() && i < 3
    ensures Canonical(Padded(Listed(g)[i])) && Value(Padded(Listed(g)[i])) == Numbers(KeyOf(g))[i]
  {
    PaddedValue(Listed(g)[i]);
  }

  /** The first number that differs decides. */
  lemma FirstDifference(a: Key, b: Key, i: nat)
    requires i < 3 && Numbers(a)[i] != Numbers(b)[i] && forall k :: 0 <= k < i ==> Numbers(a)[k] == Numbers(b)[k]
    ensures Compares(a, b, Sign(Numbers(a)[i] - Numbers(b)[i]))
  {
    assert i > 0 ==> Numbers(a)[0] == Numbers(b)[0];
    assert i > 1 ==> Numbers(a)[1] == Numbers(b)[1];
  }

  lemma SameNumbers(a: Key, b: Key)
    requires forall k :: 0 <= k < 3 ==> Numbers(a)[k] == Numbers(b)[k]
    ensures a.major == b.major && a.minor == b.minor && a.patch == b.patch
  {
    assert Numbers(a)[0] == Numbers(b)[0] && Numbers(a)[1] == Numbers(b)[1] && Numbers(a)[2] == Numbers(b)[2];
  }

  method CompareRevisions(current: Groups, target: Groups) returns (cmp: int)
    requires current.Valid() && target.Valid()
    requires forall k :: 0 <= k < 3 ==> Numbers(KeyOf(current))[k] == Numbers(KeyOf(target))[k]
    ensures Compares(KeyOf(current), KeyOf(target), cmp)
  {
    SameNumbers(KeyOf(current), KeyOf(target));
    if current.revision == target.revision {
      return 0;
    }
    if current.revision == "" {
      return 1;
    }
    if target.revision == "" {
      return -1;
    }
    RevisionsCompare(current, target);
    return CompareNumber(current.revision, target.revision);
  }

  /** One part, an absent one counting as 0. */
  method ComparePart(current: Groups, target: Groups, i: nat) returns (cmp: int)
    requires current.Valid() && target.Valid() && i < 3
    ensures cmp == Sign(Numbers(KeyOf(current))[i] - Numbers(KeyOf(target))[i])
  {
    PartIsNumber(current, i);
    PartIsNumber(target, i);
    var a, b := Padded(Listed(current)[i]), Padded(Listed(target)[i]);
    NumbersCompareAsNumbers(a, b);
    cmp := CompareNumber(a, b);
  }

  lemma SignIsZero(n: int)
    ensures Sign(n) == 0 <==> n == 0
  {
  }

  method CompareGroups(current: Groups, target: Groups) returns (cmp: int)
    requires current.Valid() && target.Valid()
    ensures Compares(KeyOf(current), KeyOf(target), cmp)
  {
    ghost var have, found := KeyOf(current), KeyOf(target);
    for i := 0 to 3
      invariant forall k :: 0 <= k < i ==> Numbers(have)[k] == Numbers(found)[k]
    {
      cmp := ComparePart(current, target, i);
      SignIsZero(Numbers(have)[i] - Numbers(found)[i]);
      if cmp != 0 {
        FirstDifference(have, found, i);
        return;
      }
    }
    cmp := CompareRevisions(current, target);
  }

  method CompareReleaseVersions(current: string, target: string) returns (r: Result<int, VersionError>)
    ensures Parse(current).None? ==> r == Err(CurrentInvalid)
    ensures Parse(current).Some? && Parse(target).None? ==> r == Err(LatestInvalid)
    ensures Parse(current).Some? && Parse(target).Some? ==>
              r.Ok? && Compares(KeyOf(Parse(current).value), KeyOf(Parse(target).value), r.value)
  {
    var a, b := Parse(current), Parse(target);
    if a.None? {
      return Err(CurrentInvalid);
    }
    if b.None? {
      return Err(LatestInvalid);
    }
    ParsesExactlyThePattern(current, a.value);
    ParsesExactlyThePattern(target, b.value);
    var cmp := CompareGroups(a.value, b.value);
    return Ok(cmp);
  }

  datatype UpgradePlan = Upgrade(target: string) | UpToDate | CurrentNewer

  /** An upgrade is planned exactly when the version found is strictly newer. */
  predicate Decides(have: Key, found: Key, latest: string, plan: UpgradePlan) {
    && (plan.Upgrade? <==> Precedes(have, found)) && (plan.Upgrade? ==> plan.target == latest)
    && (plan.UpToDate? <==> have == found) && (plan.CurrentNewer? <==> Precedes(found, have))
  }

  method Decide(cmp: int, latest: string, ghost have: Key, ghost found: Key) returns (plan: UpgradePlan)
    requires Compares(have, found, cmp)
    ensures Decides(have, found, latest, plan)
  {
    PrecedesIsAnOrder(have, found, have);
    if cmp == 0 {
      return UpToDate;
    }
    if cmp > 0 {
      return CurrentNewer;
    }
    return Upgrade(latest);
  }

  /**
   `latest` is what the query for the newest release yields; `malformed` says that it failed over a version it could not
   read.
   */
  method PlanLatestUpgrade(current: string, latest: Option<string>, malformed: bool)
    returns (r: Result<UpgradePlan, VersionError>)
    ensures r.Ok? <==> Parse(current).Some? && latest.Some? && Parse(latest.value).Some?
    ensures r.Ok? ==> Decides(KeyOf(Parse(current).value), KeyOf(Parse(latest.value).value), latest.value, r.value)
    ensures r.Err? ==>
              r.error == if Parse(current).None? then CurrentInvalid
                         else if latest.None? && !malformed then QueryFailed else LatestInvalid
  {
    var valid := CompareReleaseVersions(current, current);
    if valid.Err? {
      return Err(valid.error);
    }
    if latest.None? {
      return Err(if malformed then LatestInvalid else QueryFailed);
    }
    var cmp := CompareReleaseVersions(current, latest.value);
    if cmp.Err? {
      return Err(cmp.error);
    }
    var plan := Decide(cmp.value, latest.value, KeyOf(Parse(current).value), KeyOf(Parse(latest.value).value));
    return Ok(plan);
  }
}
