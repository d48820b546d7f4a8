/**
  The checks on revision metadata (internal/db/problems.go, validateRevision).  Trimming is
  Go's strings.TrimSpace on code points; lengths are counted in UTF-8 bytes; the JSON parser is
  the parameter `parse`, a deterministic function from text to an array of identifiers.
*/
module Validation {
  import opened Base

  datatype Meta = Meta(
    statement: string, timeLimit: Option<int>, memoryLimit: Option<int>, languages: string, checker: string)

  datatype Error = BadLanguages | BadIdentifier | TooLarge | BadLimit

  type Parser = string -> Option<seq<string>>

  /** Unicode White_Space. */
  predicate IsSpace(c: char) {
    '\t' <= c <= '\r' || c == ' ' || c == '\U{85}' || c == '\U{A0}' || c == '\U{1680}'
    || '\U{2000}' <= c <= '\U{200A}' || c == '\U{2028}' || c == '\U{2029}' || c == '\U{202F}'
    || c == '\U{205F}' || c == '\U{3000}'
  }

  function TrimLeft(s: string): string {
    if s != "" && IsSpace(s[0]) then TrimLeft(s[1..]) else s
  }

  function TrimRight(s: string): string {
    if s != "" && IsSpace(s[|s| - 1]) then TrimRight(s[..|s| - 1]) else s
  }

  function TrimSpace(s: string): string {
    TrimRight(TrimLeft(s))
  }

  function ByteLength(s: string): nat {
    if s == "" then 0
    else
      var c := s[|s| - 1];
      ByteLength(s[..|s| - 1]) +
      if c < '\U{80}' then 1 else if c < '\U{800}' then 2 else if c < '\U{10000}' then 3 else 4
  }

  /** No white space at either end. */
  predicate Trimmed(s: string) {
    s == "" || (!IsSpace(s[0]) && !IsSpace(s[|s| - 1]))
  }

  lemma {:induction false} TrimLeftStops(s: string)
    ensures TrimLeft(s) == "" || !IsSpace(TrimLeft(s)[0])
  {
    if s != "" && IsSpace(s[0]) { TrimLeftStops(s[1..]); }
  }

  lemma {:induction false} TrimRightStops(s: string)
    ensures TrimRight(s) <= s
    ensures TrimRight(s) == "" || !IsSpace(TrimRight(s)[|TrimRight(s)| - 1])
  {
    if s != "" && IsSpace(s[|s| - 1]) { TrimRightStops(s[..|s| - 1]); }
  }

  /** Trimming leaves exactly the texts it would leave alone: it is idempotent. */
  lemma {:induction false} TrimSpaceIdempotent(s: string)
    ensures Trimmed(TrimSpace(s))
    ensures Trimmed(s) <==> TrimSpace(s) == s
  {
    TrimLeftStops(s);
    TrimRightStops(TrimLeft(s));
  }

  lemma {:induction false} LeftNotBlank(s: string, i: nat)
    requires i < |s| && !IsSpace(s[i])
    ensures TrimLeft(s) != "" && exists j :: 0 <= j < |TrimLeft(s)| && !IsSpace(TrimLeft(s)[j])
  {
    if IsSpace(s[0]) { LeftNotBlank(s[1..], i - 1); }
  }

  lemma {:induction false} RightNotBlank(s: string, i: nat)
    requires i < |s| && !IsSpace(s[i])
    ensures TrimRight(s) != ""
  {
    if IsSpace(s[|s| - 1]) { RightNotBlank(s[..|s| - 1], i); }
  }

  /** A text with a visible character is not trimmed away. */
  lemma {:induction false} NotBlank(s: string, i: nat)
    requires i < |s| && !IsSpace(s[i])
    ensures TrimSpace(s) != ""
  {
    LeftNotBlank(s, i);
    var j :| 0 <= j < |TrimLeft(s)| && !IsSpace(TrimLeft(s)[j]);
    RightNotBlank(TrimLeft(s), j);
  }

  lemma {:induction false} LeftIsMiddle(s: string) returns (i: nat)
    ensures i <= |s| && TrimLeft(s) == s[i..] && forall k :: 0 <= k < i ==> IsSpace(s[k])
  {
    i := 0;
    if s != "" && IsSpace(s[0]) {
      var j := LeftIsMiddle(s[1..]);
      i := j + 1;
      forall k | 0 <= k < i ensures IsSpace(s[k]) { assert k > 0 ==> s[k] == s[1..][k - 1]; }
    }
  }

  lemma {:induction false} RightIsMiddle(s: string)
    ensures |TrimRight(s)| <= |s| && TrimRight(s) == s[..|TrimRight(s)|]
    ensures forall k :: |TrimRight(s)| <= k < |s| ==> IsSpace(s[k])
  {
    if s != "" && IsSpace(s[|s| - 1]) { RightIsMiddle(s[..|s| - 1]); }
  }

  /** Trimming takes white space off both ends, and nothing else. */
  lemma {:induction false} TrimSpaceIsMiddle(s: string) returns (i: nat, j: nat)
    ensures i <= j <= |s| && TrimSpace(s) == s[i..j]
    ensures forall k :: 0 <= k < i || j <= k < |s| ==> IsSpace(s[k])
    ensures i < j ==> !IsSpace(s[i]) && !IsSpace(s[j - 1])
  {
    i := LeftIsMiddle(s);
    RightIsMiddle(TrimLeft(s));
    j := i + |TrimSpace(s)|;
    TrimSpaceIdempotent(s);
    forall k | j <= k < |s| ensures IsSpace(s[k]) { assert s[k] == TrimLeft(s)[k - i]; }
  }

  /** The code points with the property White_Space. */
  const SPACES := [
    '\t', '\n', '\U{000B}', '\U{000C}', '\r', ' ', '\U{0085}', '\U{00A0}', '\U{1680}', '\U{2000}', '\U{2001}', '\U{2002}',
    '\U{2003}', '\U{2004}', '\U{2005}', '\U{2006}', '\U{2007}', '\U{2008}', '\U{2009}', '\U{200A}', '\U{2028}', '\U{2029}',
    '\U{202F}', '\U{205F}', '\U{3000}']

  lemma {:induction false} SpacesListed(c: char)
    ensures IsSpace(c) <==> c in SPACES
  {
    assert forall i :: 0 <= i < |SPACES| ==> IsSpace(SPACES[i]);
    if IsSpace(c) { assert c as int in [9, 10, 11, 12, 13, 32, 133, 160, 5760, 8192, 8193, 8194, 8195, 8196, 8197, 8198, 8199, 8200, 8201, 8202, 8232, 8233, 8239, 8287, 12288]; }
  }

  /** The length of a text in UTF-8 is that of its parts, and a character takes one to four bytes. */
  lemma {:induction false} ByteLengthAdds(s: string, t: string)
    ensures ByteLength(s + t) == ByteLength(s) + ByteLength(t)
    ensures forall c: char :: ByteLength([c]) == if c as int < 128 then 1 else if c as int < 2048 then 2 else if c as int < 65536 then 3 else 4
  {
    if t == "" {
      assert s + t == s;
    } else {
      var rest := t[..|t| - 1];
      ByteLengthAdds(s, rest);
      assert (s + t)[..|s + t| - 1] == s + rest;
    }
  }

  predicate LanguagesOk(languages: seq<string>) {
    && |languages| <= 100
    && (forall i :: 0 <= i < |languages| ==>
          TrimSpace(languages[i]) == languages[i] && languages[i] != "" && ByteLength(languages[i]) <= 100)
    && (forall i, j :: 0 <= i < j < |languages| ==> languages[i] != languages[j])
  }

  /** The loop over the identifiers, with its map of those seen. */
  method CheckLanguages(languages: seq<string>) returns (ok: bool)
    requires |languages| <= 100
    ensures ok <==> LanguagesOk(languages)
  {
    var seen: map<string, bool> := map[];
    for i := 0 to |languages|
      invariant LanguagesOk(languages[..i])
      invariant forall l :: l in seen <==> l in languages[..i]
    {
      var language := languages[i];
      if TrimSpace(language) != language || language == "" || ByteLength(language) > 100 || language in seen {
        return false;
      }
      seen := seen[language := true];
      assert languages[..i + 1] == languages[..i] + [language];
    }
    assert languages[..|languages|] == languages;
    ok := true;
  }

  function OrEmptyList(languages: string): string {
    if languages == "" then "[]" else languages
  }

  /** The metadata with its texts trimmed in place. */
  function Normalised(m: Meta): Meta {
    m.(statement := TrimSpace(m.statement), languages := OrEmptyList(TrimSpace(m.languages)), checker := TrimSpace(m.checker))
  }

  predicate Positive(limit: Option<int>) {
    limit.Some? ==> limit.value > 0
  }

  predicate Fits(m: Meta, parse: Parser) {
    && parse(m.languages).Some? && LanguagesOk(parse(m.languages).value)
    && ByteLength(m.statement) <= 524288 && ByteLength(m.checker) <= 200
    && (m.timeLimit.Some? ==> m.timeLimit.value > 0) && (m.memoryLimit.Some? ==> m.memoryLimit.value > 0)
  }

  /** The first check that rejected metadata fails. */
  function FirstFault(m: Meta, parse: Parser): Error {
    if parse(m.languages).None? || |parse(m.languages).value| > 100 then BadLanguages
    else if !LanguagesOk(parse(m.languages).value) then BadIdentifier
    else if ByteLength(m.statement) > 524288 || ByteLength(m.checker) > 200 then TooLarge
    else BadLimit
  }

  /** Validation normalises and then checks, in the order of the source. */
  method ValidateRevision(m: Meta, parse: Parser) returns (r: Result<Meta, Error>)
    ensures r.Ok? <==> Fits(Normalised(m), parse)
    ensures r.Ok? ==> r.value == Normalised(m)
    ensures r.Err? ==> r.error == FirstFault(Normalised(m), parse)
  {
    var n := m.(statement := TrimSpace(m.statement), checker := TrimSpace(m.checker), languages := TrimSpace(m.languages));
    if n.languages == "" { n := n.(languages := "[]"); }
    var languages := parse(n.languages);
    if languages.None? || |languages.value| > 100 { return Err(BadLanguages); }
    var ok := CheckLanguages(languages.value);
    if !ok { return Err(BadIdentifier); }
    if ByteLength(n.statement) > 524288 || ByteLength(n.checker) > 200 { return Err(TooLarge); }
    if !Positive(n.timeLimit) || !Positive(n.memoryLimit) { return Err(BadLimit); }
    r := Ok(n);
  }

  datatype ProblemError = Missing | TooLong | BadKind

  predicate NamesOk(title: string, code: string) {
    title != "" && code != "" && ByteLength(title) <= 300 && ByteLength(code) <= 64
  }

  predicate KindOk(kind: string) {
    kind == "" || kind == "programming"
  }

  /** The checks on a new problem (validateProblem); the kind may be left out and is always the same. */
  method ValidateProblem(owner: Id, title: string, code: string, kind: string) returns (r: Result<(string, string), ProblemError>)
    ensures r.Ok? <==> owner != 0 && NamesOk(TrimSpace(title), TrimSpace(code)) && KindOk(kind)
    ensures r.Ok? ==> r.value == (TrimSpace(title), TrimSpace(code))
    ensures r.Err? ==> (r.error == Missing <==> owner == 0 || TrimSpace(title) == "" || TrimSpace(code) == "")
    ensures r.Err? ==> (r.error == BadKind ==> NamesOk(TrimSpace(title), TrimSpace(code)))
  {
    var t, c := TrimSpace(title), TrimSpace(code);
    if owner == 0 || t == "" || c == "" { return Err(Missing); }
    if ByteLength(t) > 300 || ByteLength(c) > 64 { return Err(TooLong); }
    if kind != "" && kind != "programming" { return Err(BadKind); }
    r := Ok((t, c));
  }

  /** What a stored revision satisfies: validation accepts it and changes nothing. */
  predicate FixedPoint(m: Meta, parse: Parser) {
    Normalised(m) == m && Fits(m, parse)
  }

  /** Whatever validation lets through is a fixed point of it. */
  lemma {:induction false} NormalisedIsFixed(m: Meta, parse: Parser)
    requires Fits(Normalised(m), parse)
    ensures FixedPoint(Normalised(m), parse)
  {
    TrimSpaceIdempotent(m.statement);
    TrimSpaceIdempotent(m.languages);
    TrimSpaceIdempotent(m.checker);
    TrimSpaceIdempotent(TrimSpace(m.statement));
    TrimSpaceIdempotent(TrimSpace(m.checker));
    TrimSpaceIdempotent(OrEmptyList(TrimSpace(m.languages)));
  }
}
