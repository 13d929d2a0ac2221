/** Stored filenames: readable, safe in a single directory, and decodable to an identity. */
module Naming {
  import opened Base

  // ------------------------------------------------------------------ numbers

  function Digit(d: nat): (c: char)
    requires d < 10
    ensures IsDigit(c) && DigitValue(c) == d
  {
    '0' + d as char
  }

  predicate IsDigit(c: char) { '0' <= c <= '9' }

  function DigitValue(c: char): nat
    requires IsDigit(c)
  {
    (c - '0') as nat
  }

  function Decimal(n: nat): (s: string)
    ensures s != "" && forall c :: c in s ==> IsDigit(c)
  {
    if n < 10 then [Digit(n)] else Decimal(n / 10) + [Digit(n % 10)]
  }

  function IntText(n: int): string {
    if n < 0 then "-" + Decimal(-n) else Decimal(n)
  }

  /** `f"{version:02d}"`: padded to two characters, sign included. */
  function VersionText(version: int): string {
    if 0 <= version < 10 then "0" + Decimal(version) else IntText(version)
  }

  function Value(s: string): nat
    requires forall c :: c in s ==> IsDigit(c)
  {
    if s == "" then 0 else Value(s[..|s| - 1]) * 10 + DigitValue(s[|s| - 1])
  }

  function IntOf(s: string): Option<int> {
    var negative := s != "" && s[0] == '-';
    var digits := if negative then s[1..] else s;
    if digits != "" && forall c :: c in digits ==> IsDigit(c)
    then
      var magnitude: int := Value(digits);
      Some(if negative then -magnitude else magnitude)
    else None
  }

  lemma {:induction false} DecimalValue(n: nat)
    ensures Value(Decimal(n)) == n
  {
    if n >= 10 {
      DecimalValue(n / 10);
      var s := Decimal(n);
      assert s[..|s| - 1] == Decimal(n / 10) && s[|s| - 1] == Digit(n % 10);
    } else {
      assert Decimal(n)[..0] == "";
    }
  }

  lemma IntTextParses(n: int)
    ensures IntOf(IntText(n)) == Some(n)
    ensures '_' !in IntText(n) && '.' !in IntText(n)
  {
    DecimalValue(if n < 0 then -n else n);
    var digits := Decimal(if n < 0 then -n else n);
    assert IntText(n) == if n < 0 then "-" + digits else digits;
    assert n < 0 ==> IntText(n)[1..] == digits;
    assert IsDigit(digits[0]);
  }

  lemma {:induction false} LeadingZero(s: string)
    requires forall c :: c in s ==> IsDigit(c)
    ensures Value("0" + s) == Value(s)
  {
    if s != "" {
      var t := "0" + s;
      assert t[..|t| - 1] == "0" + s[..|s| - 1];
      LeadingZero(s[..|s| - 1]);
    } else {
      var t := "0" + s;
      assert t == "0" && t[..0] == "";
    }
  }

  lemma VersionTextParses(version: int)
    ensures IntOf(VersionText(version)) == Some(version)
    ensures '_' !in VersionText(version) && '.' !in VersionText(version)
  {
    if 0 <= version < 10 {
      DecimalValue(version);
      LeadingZero(Decimal(version));
    } else {
      IntTextParses(version);
    }
  }

  // ---------------------------------------------------------------- splitting

  /** Split at the last occurrence of `c`. */
  function SplitLast(s: string, c: char): (r: Option<(string, string)>)
    ensures r.None? <==> c !in s
    ensures r.Some? ==> s == r.value.0 + [c] + r.value.1 && c !in r.value.1
  {
    if s == "" then None
    else if s[|s| - 1] == c then Some((s[..|s| - 1], ""))
    else match SplitLast(s[..|s| - 1], c)
      case None => None
      case Some((a, b)) => Some((a, b + [s[|s| - 1]]))
  }

  lemma {:induction false} SplitLastUnique(a: string, c: char, b: string)
    requires c !in b
    ensures SplitLast(a + [c] + b, c) == Some((a, b))
  {
    var s := a + [c] + b;
    if b != "" {
      var b' := b[..|b| - 1];
      SplitLastUnique(a, c, b');
      assert s[..|s| - 1] == a + [c] + b';
      assert b == b' + [b[|b| - 1]];
    } else {
      assert s[..|s| - 1] == a;
    }
  }

  /** `{id}` in front of the last separator. */
  function IdText(head: string): string {
    match SplitLast(head, '_') case None => head case Some((_, t)) => t
  }

  /** The identity a stored name carries: `[..._]{id}_V{version}.{ext}`. */
  function IdentityOf(name: string): Option<Id> {
    match SplitLast(name, '_')
    case None => None
    case Some((head, tail)) =>
      match SplitLast(tail, '.')
      case None => None
      case Some((stem, _)) =>
        var idText := IdText(head);
        if stem == "" || stem[0] != 'V' then None
        else match (IntOf(idText), IntOf(stem[1..]))
          case (Some(document), Some(version)) => Some(Id(document, version))
          case _ => None
  }

  /** `{id}_V{version}.{extension}`: the part of every name that is the identity. */
  function IdentityTail(id: Id, extension: string): string {
    IntText(id.document) + "_" + "V" + VersionText(id.version) + "." + extension
  }

  lemma StemParses(version: int, extension: string)
    requires '_' !in extension && '.' !in extension
    ensures var tail := "V" + VersionText(version) + "." + extension;
            && '_' !in tail
            && SplitLast(tail, '.') == Some(("V" + VersionText(version), extension))
            && IntOf(("V" + VersionText(version))[1..]) == Some(version)
  {
    VersionTextParses(version);
    SplitLastUnique("V" + VersionText(version), '.', extension);
    assert ("V" + VersionText(version))[1..] == VersionText(version);
  }

  lemma HeadParses(front: string, document: int)
    requires front == "" || front[|front| - 1] == '_'
    ensures var head := front + IntText(document);
            IntOf(IdText(head)) == Some(document)
  {
    IntTextParses(document);
    if front == "" {
      assert front + IntText(document) == IntText(document);
    } else {
      assert front + IntText(document) == front[..|front| - 1] + "_" + IntText(document);
      SplitLastUnique(front[..|front| - 1], '_', IntText(document));
    }
  }

  lemma FromParts(name: string, head: string, tail: string, stem: string, extension: string, id: Id)
    requires SplitLast(name, '_') == Some((head, tail)) && SplitLast(tail, '.') == Some((stem, extension))
    requires stem != "" && stem[0] == 'V' && IntOf(stem[1..]) == Some(id.version)
        && IntOf(IdText(head)) == Some(id.document)
    ensures IdentityOf(name) == Some(id)
  {
    hide IntOf, SplitLast;
  }

  lemma TailParses(front: string, id: Id, extension: string)
    requires '_' !in extension && '.' !in extension
    requires front == "" || front[|front| - 1] == '_'
    ensures IdentityOf(front + IdentityTail(id, extension)) == Some(id)
  {
    hide IntOf, IntText, VersionText, SplitLast, IdentityOf;
    StemParses(id.version, extension);
    HeadParses(front, id.document);
    var head, stem := front + IntText(id.document), "V" + VersionText(id.version);
    var tail := stem + "." + extension;
    assert front + IdentityTail(id, extension) == head + "_" + tail;
    SplitLastUnique(head, '_', tail);
    FromParts(head + "_" + tail, head, tail, stem, extension, id);
  }

  // --------------------------------------------------------------- sanitising

  /** The Unicode tables this code leans on, whatever they are. */
  datatype Unicode = Unicode(
    fold: string -> string,
    upper: string -> string,
    lower: string -> string,
    space: char -> bool)

  const MAX_COMPONENT := 48

  /** Names Windows keeps for devices. */
  predicate Reserved(s: string) {
    || s == "CON" || s == "PRN" || s == "AUX" || s == "NUL"
    || (|s| == 4 && (s[..3] == "COM" || s[..3] == "LPT") && '1' <= s[3] <= '9')
  }

  predicate Unsafe(c: char) {
    c in {'<', '>', ':', '\"', '/', '\\', '|', '?', '*'} || c < ' '
  }

  /** What may stand in a component once it is clean. */
  predicate Clean(s: string) {
    forall c :: c in s ==> !Unsafe(c) && c != '_'
  }

  function ReplaceUnsafe(s: string): (r: string)
    ensures |r| == |s| && forall c :: c in r ==> !Unsafe(c)
  {
    seq(|s|, i requires 0 <= i < |s| => if Unsafe(s[i]) then '-' else s[i])
  }

  function StripLeft(s: string, p: char -> bool): (r: string)
    ensures |r| <= |s| && (forall c :: c in r ==> c in s) && (r != "" ==> !p(r[0]))
  {
    if s != "" && p(s[0]) then StripLeft(s[1..], p) else s
  }

  function StripRight(s: string, p: char -> bool): (r: string)
    ensures r <= s && (r != "" ==> !p(r[|r| - 1]))
  {
    if s != "" && p(s[|s| - 1]) then StripRight(s[..|s| - 1], p) else s
  }

  function Strip(s: string, p: char -> bool): (r: string)
    ensures |r| <= |s| && (forall c :: c in r ==> c in s) && (r != "" ==> !p(r[0]) && !p(r[|r| - 1]))
  {
    StripRight(StripLeft(s, p), p)
  }

  /** Replace every maximal run of `p` characters by one dash. */
  function CollapseRuns(s: string, p: char -> bool): (r: string)
    ensures |r| <= |s| && forall c :: c in r ==> c == '-' || (c in s && !p(c))
    decreases |s|
  {
    if s == "" then ""
    else if p(s[0]) then "-" + CollapseRuns(StripLeft(s[1..], p), p)
    else [s[0]] + CollapseRuns(s[1..], p)
  }

  predicate DashOrDot(c: char) { c == '-' || c == '.' }

  /** Unsafe characters replaced, the ends trimmed, every run of spaces and underscores one dash. */
  function Separated(u: Unicode, value: string): (r: string)
    ensures Clean(r)
  {
    CollapseRuns(Strip(ReplaceUnsafe(u.fold(value)), u.space), c => u.space(c) || c == '_')
  }

  /** Everything before the reserved-name check. */
  function Tidy(u: Unicode, value: string, maxLength: nat): (r: string)
    ensures Clean(r) && |r| <= maxLength
    ensures r != "" ==> !DashOrDot(r[0]) && !DashOrDot(r[|r| - 1])
  {
    var dashed := Strip(CollapseRuns(Separated(u, value), c => c == '-'), DashOrDot);
    assert Clean(dashed);
    if |dashed| > maxLength then StripRight(dashed[..maxLength], DashOrDot) else dashed
  }

  function Suffixed(s: string): (r: string)
    requires Clean(s)
    ensures Clean(r) && r == s + "-doc"
  {
    s + "-doc"
  }

  /** A safe, readable filename component. */
  function Sanitize(u: Unicode, value: string, maxLength: nat := MAX_COMPONENT): (r: string)
    ensures Clean(r) && |r| <= maxLength + 4
    ensures r != "" ==> !DashOrDot(r[0]) && !DashOrDot(r[|r| - 1])
  {
    if value == "" then ""
    else
      var cleaned := Tidy(u, value, maxLength);
      if Reserved(u.upper(cleaned)) && cleaned != "" then Suffixed(cleaned) else cleaned
  }

  /** A component that must not be empty. */
  function Required(u: Unicode, value: string, maxLength: nat, fallback: string): (r: string)
    requires Clean(fallback) && fallback != "" && fallback[0] != '.'
    ensures Clean(r) && r != "" && r[0] != '.'
  {
    var clean := Sanitize(u, value, maxLength);
    if clean == "" then fallback else clean
  }

  function Terminated(s: string): (r: string)
    requires Clean(s)
    ensures r == s + "_" && '/' !in r
  {
    assert '/' !in s;
    s + "_"
  }

  lemma FallbacksAreClean()
    ensures Clean("unknown") && Clean("Documento")
  {
  }

  /** The components before the identity, each followed by the separator. */
  function Front(u: Unicode, prefix: string, category: string, species: string): (r: string)
    ensures r != "" && r[0] != '.' && r[|r| - 1] == '_' && '/' !in r
  {
    FallbacksAreClean();
    var first := Required(u, prefix, 28, "unknown");
    var second := Required(u, category, 32, "Documento");
    var third := Sanitize(u, species, 32);
    var tail := if third != "" && u.lower(third) != u.lower(second) then Terminated(third) else "";
    Terminated(first) + Terminated(second) + tail
  }

  function DocumentFilename(u: Unicode, prefix: string, category: string, species: string,
                            id: Id, extension: string): string {
    Front(u, prefix, category, species) + IdentityTail(id, StripLeft(extension, c => c == '.'))
  }

  function PartFilename(id: Id): string {
    IdentityTail(id, "part")
  }

  /**
   Filenames determine identity: whatever the prefix, category and species, the
   stored name decodes to its own (id, version), is one path component, and is
   neither hidden nor a relative path.
   */
  lemma FilenameDeterminesIdentity(u: Unicode, prefix: string, category: string, species: string,
                                   id: Id, extension: string)
    requires '_' !in extension && '.' !in extension && '/' !in extension
    ensures var name := DocumentFilename(u, prefix, category, species, id, extension);
            IdentityOf(name) == Some(id) && '/' !in name && name != "" && name[0] != '.'
  {
    hide Sanitize, IdentityOf;
    var front := Front(u, prefix, category, species);
    TailParses(front, id, extension);
    NumbersHaveNoSlash(id);
    NothingToStrip(extension);
  }

  lemma NothingToStrip(extension: string)
    requires '.' !in extension
    ensures StripLeft(extension, c => c == '.') == extension
  {
  }

  lemma NumbersHaveNoSlash(id: Id)
    ensures '/' !in IntText(id.document) && '/' !in VersionText(id.version)
  {
  }

  /** Two publications never share a stored name or a staging name. */
  lemma DistinctPublicationsDistinctNames(u: Unicode, p1: string, c1: string, s1: string, id1: Id, e1: string,
                                          p2: string, c2: string, s2: string, id2: Id, e2: string)
    requires '_' !in e1 && '.' !in e1 && '/' !in e1 && '_' !in e2 && '.' !in e2 && '/' !in e2
    requires id1 != id2
    ensures DocumentFilename(u, p1, c1, s1, id1, e1) != DocumentFilename(u, p2, c2, s2, id2, e2)
    ensures PartFilename(id1) != PartFilename(id2)
  {
    hide Sanitize, Front, IdentityOf, DocumentFilename;
    FilenameDeterminesIdentity(u, p1, c1, s1, id1, e1);
    FilenameDeterminesIdentity(u, p2, c2, s2, id2, e2);
    TailParses("", id1, "part");
    TailParses("", id2, "part");
    assert "" + PartFilename(id1) == PartFilename(id1) && "" + PartFilename(id2) == PartFilename(id2);
  }
}
