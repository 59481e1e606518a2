/** Version strings of the CVE matcher (_version, _display_version and _in_range in cve.py), over ASCII text. */
module CveVersion {
  import opened Common

  datatype Version = Version(major: nat, minor: nat, patch: nat)

  /** Python's comparison of the parsed tuples. */
  predicate Leq(a: Version, b: Version) {
    a.major < b.major || (a.major == b.major && (a.minor < b.minor || (a.minor == b.minor && a.patch <= b.patch)))
  }

  predicate Less(a: Version, b: Version) {
    !Leq(b, a)
  }

  // ----- The regular expression \s*(\d+)(?:\.(\d+))?(?:\.(\d+))?\s* -----

  /** Length of the longest prefix of digits. */
  function DigitSpan(s: string): (n: nat)
    ensures n <= |s| && AllDigits(s[..n])
    ensures n == |s| || !IsDigit(s[n])
  {
    if s == [] || !IsDigit(s[0]) then 0
    else
      var n := 1 + DigitSpan(s[1..]);
      assert s[..n] == [s[0]] + s[1..][..n - 1];
      n
  }

  /** One optional group: a dot and digits, or nothing. */
  function OptionalPart(s: string): (r: (nat, string)) {
    if s != [] && s[0] == '.' && DigitSpan(s[1..]) > 0 then
      var n := DigitSpan(s[1..]);
      (ParseDecimal(s[1..][..n]), s[1 + n..])
    else (0, s)
  }

  function ParseVersion(s: string): Option<Version> {
    var t := Strip(s);
    var n := DigitSpan(t);
    if n == 0 then None
    else
      var (minor, rest) := OptionalPart(t[n..]);
      var (patch, left) := OptionalPart(rest);
      if left == [] then Some(Version(ParseDecimal(t[..n]), minor, patch)) else None
  }

  // ----- What the expression accepts: one to three groups of digits joined by dots, between white space -----

  ghost predicate Groups(parts: seq<string>) {
    1 <= |parts| <= 3 && forall i :: 0 <= i < |parts| ==> parts[i] != [] && AllDigits(parts[i])
  }

  function Dotted(parts: seq<string>): string {
    if parts == [] then ""
    else if |parts| == 1 then parts[0]
    else parts[0] + "." + Dotted(parts[1..])
  }

  ghost function PartAt(parts: seq<string>, i: nat): nat
    requires Groups(parts)
  {
    if i < |parts| then ParseDecimal(parts[i]) else 0
  }

  ghost function VersionOf(parts: seq<string>): Version
    requires Groups(parts)
  {
    Version(PartAt(parts, 0), PartAt(parts, 1), PartAt(parts, 2))
  }

  /** Digits followed by the end of the text or by a dot are taken as a whole. */
  lemma {:induction false} SpanOfDigits(d: string, rest: string)
    requires AllDigits(d) && (rest == [] || rest[0] == '.')
    ensures DigitSpan(d + rest) == |d|
    ensures (d + rest)[..|d|] == d && (d + rest)[|d|..] == rest
  {
    if d != [] {
      assert (d + rest)[1..] == d[1..] + rest;
      SpanOfDigits(d[1..], rest);
    } else {
      assert d + rest == rest;
    }
  }

  lemma {:induction false} PartRead(d: string, rest: string)
    requires d != [] && AllDigits(d) && (rest == [] || rest[0] == '.')
    ensures OptionalPart("." + d + rest) == (ParseDecimal(d), rest)
  {
    var s := "." + d + rest;
    assert s[1..] == d + rest;
    SpanOfDigits(d, rest);
    assert s[1 + |d|..] == rest;
  }

  lemma NoPart()
    ensures OptionalPart("") == (0, "")
  {
  }

  /** Dotted groups between white space parse to their values, missing groups to 0. */
  lemma {:induction false} GroupsParse(s: string, parts: seq<string>)
    requires Groups(parts) && Strip(s) == Dotted(parts)
    ensures ParseVersion(s) == Some(VersionOf(parts))
  {
    hide Strip, ParseDecimal, DigitSpan, OptionalPart;
    NoPart();
    var d0 := parts[0];
    if |parts| == 1 {
      assert Dotted(parts) == d0 + "";
      SpanOfDigits(d0, "");
    } else {
      var tail := parts[1..];
      var d1 := tail[0];
      if |parts| == 2 {
        assert Dotted(tail) == d1 + "" && Dotted(parts) == d0 + ("." + d1 + "");
        SpanOfDigits(d0, "." + d1 + "");
        PartRead(d1, "");
      } else {
        var d2 := tail[1];
        assert tail[1..] == [d2] && Dotted(tail) == d1 + "." + d2;
        var rest := "." + d2 + "";
        assert Dotted(parts) == d0 + ("." + d1 + rest);
        SpanOfDigits(d0, "." + d1 + rest);
        PartRead(d1, rest);
        PartRead(d2, "");
      }
    }
  }

  /** An optional group either takes nothing or takes a dot and digits. */
  lemma PartTaken(s: string)
    requires OptionalPart(s).1 != s
    ensures var d := s[1..][..DigitSpan(s[1..])]; d != [] && AllDigits(d) && s == "." + d + OptionalPart(s).1
  {
  }

  lemma DottedShort(a: string, b: string, c: string)
    ensures Dotted([a]) == a
    ensures Dotted([a, b]) == a + ("." + b)
    ensures Dotted([a, b, c]) == a + ("." + b + ("." + c))
  {
    assert [a, b][1..] == [b] && [a, b, c][1..] == [b, c] && [b, c][1..] == [c];
    assert Dotted([b, c]) == b + "." + c && Dotted([a, b, c]) == a + "." + Dotted([b, c]);
    assert a + "." + b == a + ("." + b);
    assert a + "." + (b + "." + c) == a + ("." + b + ("." + c));
  }

  ghost predicate Grammatical(t: string) {
    exists parts :: Groups(parts) && t == Dotted(parts)
  }

  lemma Rebuilt(d0: string, rest: string)
    requires d0 != [] && AllDigits(d0) && OptionalPart(OptionalPart(rest).1).1 == []
    ensures Grammatical(d0 + rest)
  {
    if rest == [] {
      DottedShort(d0, "", "");
      assert Groups([d0]) && d0 + rest == Dotted([d0]);
    } else {
      var rest2 := OptionalPart(rest).1;
      PartTaken(rest);
      var d1 := rest[1..][..DigitSpan(rest[1..])];
      if rest2 == [] {
        DottedShort(d0, d1, "");
        hide *;
        assert Groups([d0, d1]) by {
          PairGroups(d0, d1);
        }
        assert "." + d1 + rest2 == "." + d1;
        Witnessed(d0 + rest, [d0, d1]);
      } else {
        PartTaken(rest2);
        var d2 := rest2[1..][..DigitSpan(rest2[1..])];
        DottedShort(d0, d1, d2);
        hide *;
        TripleGroups(d0, d1, d2);
        assert "." + d2 + [] == "." + d2;
        Witnessed(d0 + rest, [d0, d1, d2]);
      }
    }
  }

  lemma Witnessed(t: string, parts: seq<string>)
    requires Groups(parts) && t == Dotted(parts)
    ensures Grammatical(t)
  {
  }

  lemma PairGroups(a: string, b: string)
    requires a != [] && AllDigits(a) && b != [] && AllDigits(b)
    ensures Groups([a, b])
  {
  }

  lemma TripleGroups(a: string, b: string, c: string)
    requires a != [] && AllDigits(a) && b != [] && AllDigits(b) && c != [] && AllDigits(c)
    ensures Groups([a, b, c])
  {
  }

  /** Everything else is refused. */
  lemma ParseMeansGroups(s: string)
    requires ParseVersion(s).Some?
    ensures Grammatical(Strip(s))
  {
    var t := Strip(s);
    hide Strip, Grammatical;
    Rebuilt(t[..DigitSpan(t)], t[DigitSpan(t)..]);
    assert t == t[..DigitSpan(t)] + t[DigitSpan(t)..];
  }

  /** The parser is the regular expression. */
  lemma ParserIsGrammar(s: string, v: Version)
    ensures ParseVersion(s) == Some(v) <==>
      exists parts :: Groups(parts) && Strip(s) == Dotted(parts) && VersionOf(parts) == v
  {
    hide Strip;
    if ParseVersion(s) == Some(v) {
      ParseMeansGroups(s);
      var parts :| Groups(parts) && Strip(s) == Dotted(parts);
      GroupsParse(s, parts);
    }
    if parts :| Groups(parts) && Strip(s) == Dotted(parts) && VersionOf(parts) == v {
      GroupsParse(s, parts);
    }
  }

  // ----- Display -----

  /** The components a display keeps: a zero third one is dropped. */
  function Kept(v: Version): seq<nat> {
    if v.patch == 0 then [v.major, v.minor] else [v.major, v.minor, v.patch]
  }

  function Decimals(parts: seq<nat>): (r: seq<string>)
    ensures |r| == |parts| && forall i :: 0 <= i < |parts| ==> r[i] == Decimal(parts[i])
  {
    if parts == [] then [] else [Decimal(parts[0])] + Decimals(parts[1..])
  }

  function Display(value: Option<string>): Option<string> {
    var parsed := ParseVersion(if value.Some? then value.value else "");
    if parsed.None? then value else Some(Dotted(Decimals(Kept(parsed.value))))
  }

  /** major.minor, and the third component only when it is not zero; an unreadable version is shown as it is. */
  lemma DisplayMeans(value: Option<string>)
    ensures value.None? || ParseVersion(value.value).None? ==> Display(value) == value
    ensures value.Some? && ParseVersion(value.value).Some? ==> var v := ParseVersion(value.value).value;
      Display(value) == Some(Decimal(v.major) + "." + Decimal(v.minor) +
                             if v.patch == 0 then "" else "." + Decimal(v.patch))
  {
    hide ParseVersion, Decimal, Dotted, Decimals, Kept;
    NothingParses();
    if value.Some? && ParseVersion(value.value).Some? {
      DottedDisplay(ParseVersion(value.value).value);
    }
  }

  lemma NothingParses()
    ensures ParseVersion("").None?
  {
  }

  lemma DottedDisplay(v: Version)
    ensures Dotted(Decimals(Kept(v))) ==
      Decimal(v.major) + "." + Decimal(v.minor) + if v.patch == 0 then "" else "." + Decimal(v.patch)
  {
    hide Decimal;
    DottedShort(Decimal(v.major), Decimal(v.minor), Decimal(v.patch));
    var parts := Decimals(Kept(v));
    if v.patch == 0 {
      assert parts == [Decimal(v.major), Decimal(v.minor)];
    } else {
      assert parts == [Decimal(v.major), Decimal(v.minor), Decimal(v.patch)];
    }
    hide Dotted;
  }

  method DisplayVersion(value: Option<string>) returns (r: Option<string>)
    ensures r == Display(value)
  {
    hide Strip, ParseVersion;
    var parsed := ParseVersion(if value.Some? then value.value else "");
    if parsed.None? {
      return value;
    }
    var v := parsed.value;
    var parts := [v.major, v.minor, v.patch];
    while |parts| > 2 && parts[|parts| - 1] == 0
      invariant parts == [v.major, v.minor, v.patch] || (v.patch == 0 && parts == [v.major, v.minor])
      decreases |parts|
    {
      parts := parts[..|parts| - 1];
    }
    r := Some(Dotted(Decimals(parts)));
  }

  lemma {:induction false} DottedEnds(parts: seq<string>)
    requires Groups(parts)
    ensures var s := Dotted(parts); s != [] && IsDigit(s[0]) && IsDigit(s[|s| - 1])
    decreases |parts|
  {
    if |parts| > 1 {
      DottedEnds(parts[1..]);
    }
  }

  lemma NothingToStrip(s: string)
    requires s != [] && !IsSpace(s[0]) && !IsSpace(s[|s| - 1])
    ensures Strip(s) == s
  {
  }

  /** The display of a version parses to the same triple. */
  lemma {:induction false} DisplayParsesBack(s: string)
    requires ParseVersion(s).Some?
    ensures Display(Some(s)).Some? && ParseVersion(Display(Some(s)).value) == ParseVersion(s)
  {
    hide Strip, ParseVersion;
    var v := ParseVersion(s).value;
    var parts := Decimals(Kept(v));
    assert Groups(parts);
    DottedEnds(parts);
    NothingToStrip(Dotted(parts));
    GroupsParse(Dotted(parts), parts);
    ParseOfDecimal(v.major);
    ParseOfDecimal(v.minor);
    ParseOfDecimal(v.patch);
  }

  /** Two displays of parseable versions are equal exactly when the triples are; displaying twice changes nothing. */
  lemma {:induction false} DisplayCanonical(s: string, t: string)
    requires ParseVersion(s).Some? && ParseVersion(t).Some?
    ensures Display(Some(s)) == Display(Some(t)) <==> ParseVersion(s) == ParseVersion(t)
  {
    DisplayParsesBack(s);
    DisplayParsesBack(t);
    hide ParseVersion;
  }

  lemma {:induction false} DisplayIdempotent(value: Option<string>)
    ensures Display(Display(value)) == Display(value)
  {
    assert ParseVersion("").None?;
    hide ParseVersion;
    if value.Some? && ParseVersion(value.value).Some? {
      DisplayParsesBack(value.value);
    }
  }

  // ----- Ranges -----

  /** A bound that is present and not the empty string. */
  predicate Given(bound: Option<string>) {
    bound.Some? && bound.value != []
  }

  function InRange(installed: string, from: Option<string>, before: Option<string>): Option<bool> {
    if !Given(from) || !Given(before) then None
    else
      var current, lower, upper := ParseVersion(installed), ParseVersion(from.value), ParseVersion(before.value);
      if current.None? || lower.None? || upper.None? then None
      else Some(Leq(lower.value, current.value) && Less(current.value, upper.value))
  }

  /** The text before the first dot: value.split(".", 1)[0]. */
  function MajorText(s: string): (r: string)
    ensures '.' !in r && r <= s
    ensures r == s || s[|r|] == '.'
  {
    if s == [] || s[0] == '.' then [] else [s[0]] + MajorText(s[1..])
  }

  lemma {:induction false} MajorOfDotted(d: string, rest: string)
    requires AllDigits(d) && (rest == [] || rest[0] == '.')
    ensures MajorText(d + rest) == d
  {
    if d != [] {
      assert (d + rest)[1..] == d[1..] + rest;
      MajorOfDotted(d[1..], rest);
    } else {
      assert d + rest == rest;
    }
  }

  lemma DottedSplit(parts: seq<string>)
    requires Groups(parts)
    ensures MajorText(Dotted(parts)) == parts[0]
  {
    if |parts| == 1 {
      assert Dotted(parts) == parts[0] + "";
      MajorOfDotted(parts[0], "");
    } else {
      assert Dotted(parts) == parts[0] + ("." + Dotted(parts[1..]));
      MajorOfDotted(parts[0], "." + Dotted(parts[1..]));
    }
  }

  /** For an installed version without surrounding white space, the floor major.0 parses and is never above it. */
  lemma {:induction false} FloorIsBelow(installed: string)
    requires ParseVersion(installed).Some? && Strip(installed) == installed
    ensures var v := ParseVersion(installed).value;
      ParseVersion(MajorText(installed) + ".0") == Some(Version(v.major, 0, 0)) && Leq(Version(v.major, 0, 0), v)
  {
    ParseMeansGroups(installed);
    hide Strip, ParseVersion, MajorText;
    var parts :| Groups(parts) && Strip(installed) == Dotted(parts);
    DottedSplit(parts);
    GroupsParse(installed, parts);
    FloorParses(parts[0]);
  }

  lemma {:induction false} FloorParses(major: string)
    requires major != [] && AllDigits(major)
    ensures ParseVersion(major + ".0") == Some(Version(ParseDecimal(major), 0, 0))
  {
    var floor := [major, "0"];
    DottedShort(major, "0", "");
    assert Groups(floor);
    hide Strip, ParseVersion, Dotted;
    assert major + ".0" == Dotted(floor);
    DottedEnds(floor);
    NothingToStrip(Dotted(floor));
    GroupsParse(Dotted(floor), floor);
    assert "0"[..0] == "" && ParseDecimal("0") == 0;
  }
}
