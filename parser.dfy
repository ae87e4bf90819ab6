/** The terraform output classifier (pkg/executor/terraform/parser.go). JSON
    decoding of a line is a parameter `decode` (None when `json.Unmarshal`
    fails); the state document is a decoded `Json.Json` tree. */
module TerraformParser {
  import opened Wrappers
  import Text
  import Json

  datatype ChangeSummary = ChangeSummary(add: int, change: int, importCount: int, remove: int, operation: string)

  datatype SourceRange = SourceRange(filename: string, line: int, column: int)

  datatype Diagnostic = Diagnostic(
    severity: string,
    summary: string,
    detail: string,
    address: string,
    range: Option<SourceRange>)

  /** One line of `terraform -json` output. Null pointers are None. */
  datatype TerraformMessage = TerraformMessage(
    level: string,
    message: string,
    moduleName: string,
    timestamp: string,
    msgType: string,
    terraform: string,
    ui: string,
    changes: Option<ChangeSummary>,
    diagnostic: Option<Diagnostic>)

  datatype PlanInfo = PlanInfo(toAdd: int, toChange: int, toDestroy: int)

  datatype ParseResult = ParseResult(
    messages: seq<TerraformMessage>,
    changes: Option<ChangeSummary>,
    errors: seq<Diagnostic>,
    version: string,
    success: bool)

  /** `json.Unmarshal` of one line into a message, None when it fails. */
  type Decoder = string -> Option<TerraformMessage>

  // ----- ParseJSONOutput -----

  /** The message a line contributes: none when it is blank after trimming,
      does not start with `{`, or does not decode. */
  function LineMessage(line: string, decode: Decoder): Option<TerraformMessage> {
    var t := Text.TrimSpace(line);
    if t == "" || !Text.HasPrefix(t, "{") then None else decode(t)
  }

  /** The decoded messages of `lines`, in order. */
  function Decoded(lines: seq<string>, decode: Decoder): seq<TerraformMessage>
    decreases |lines|
  {
    if lines == [] then []
    else
      var m := LineMessage(lines[|lines| - 1], decode);
      Decoded(lines[..|lines| - 1], decode) + (if m.Some? then [m.value] else [])
  }

  const EmptyResult: ParseResult := ParseResult([], None, [], "", true)

  /** Records one message: it is kept, and the switch on its type updates
      the version, the change summary or the diagnostics. */
  function Absorb(r: ParseResult, m: TerraformMessage): ParseResult {
    var r1 := r.(messages := r.messages + [m]);
    if m.msgType == "version" then r1.(version := m.terraform)
    else if m.msgType == "change_summary" then
      (if m.changes.Some? then r1.(changes := m.changes) else r1)
    else if m.msgType == "diagnostic" && m.diagnostic.Some? then
      r1.(errors := r1.errors + [m.diagnostic.value],
          success := r1.success && m.diagnostic.value.severity != "error")
    else r1
  }

  function Summarize(ms: seq<TerraformMessage>): ParseResult
    decreases |ms|
  {
    if ms == [] then EmptyResult else Absorb(Summarize(ms[..|ms| - 1]), ms[|ms| - 1])
  }

  /** The result ParseJSONOutput builds for `output`. */
  function ParseOutput(output: string, decode: Decoder): ParseResult {
    Summarize(Decoded(Text.Split(output, '\n'), decode))
  }

  lemma DecodedSnoc(lines: seq<string>, i: nat, decode: Decoder)
    requires i < |lines|
    ensures Decoded(lines[..i + 1], decode) == Decoded(lines[..i], decode) +
      (if LineMessage(lines[i], decode).Some? then [LineMessage(lines[i], decode).value] else [])
  {
    assert lines[..i + 1][..i] == lines[..i];
  }

  lemma SummarizeSnoc(ms: seq<TerraformMessage>, m: TerraformMessage)
    ensures Summarize(ms + [m]) == Absorb(Summarize(ms), m)
  {
    assert (ms + [m])[..|ms|] == ms;
  }

  method ParseJSONOutput(output: string, decode: Decoder) returns (result: ParseResult)
    ensures result == ParseOutput(output, decode)
  {
    result := EmptyResult;
    var lines := Text.Split(output, '\n');
    var i := 0;
    while i < |lines|
      invariant 0 <= i <= |lines|
      invariant result == Summarize(Decoded(lines[..i], decode))
    {
      DecodedSnoc(lines, i, decode);
      var line := Text.TrimSpace(lines[i]);
      if line == "" || !Text.HasPrefix(line, "{") {
        assert LineMessage(lines[i], decode).None?;
        assert Decoded(lines[..i + 1], decode) == Decoded(lines[..i], decode);
        i := i + 1;
        continue;
      }
      var decoded := decode(line);
      assert LineMessage(lines[i], decode) == decoded;
      if decoded.None? {
        assert Decoded(lines[..i + 1], decode) == Decoded(lines[..i], decode);
        i := i + 1;
        continue;
      }
      var msg := decoded.value;
      SummarizeSnoc(Decoded(lines[..i], decode), msg);
      ghost var expected := Absorb(result, msg);
      result := result.(messages := result.messages + [msg]);
      if msg.msgType == "version" {
        result := result.(version := msg.terraform);
      } else if msg.msgType == "change_summary" {
        if msg.changes.Some? {
          result := result.(changes := msg.changes);
        }
      } else if msg.msgType == "diagnostic" {
        if msg.diagnostic.Some? {
          result := result.(errors := result.errors + [msg.diagnostic.value]);
          if msg.diagnostic.value.severity == "error" {
            result := result.(success := false);
          }
        }
      }
      assert result == expected;
      assert Decoded(lines[..i + 1], decode) == Decoded(lines[..i], decode) + [msg];
      i := i + 1;
    }
    assert lines[..i] == lines;
  }

  /** Lines are independent: the messages of a concatenation are the
      messages of its parts, so a skipped line has no effect on later ones. */
  lemma {:induction false} DecodedAppend(a: seq<string>, b: seq<string>, decode: Decoder)
    ensures Decoded(a + b, decode) == Decoded(a, decode) + Decoded(b, decode)
    decreases |b|
  {
    if b == [] {
      assert a + b == a;
    } else {
      assert (a + b)[..|a + b| - 1] == a + b[..|b| - 1];
      DecodedAppend(a, b[..|b| - 1], decode);
    }
  }

  /** The messages of a single line. */
  lemma DecodedOne(line: string, decode: Decoder)
    ensures Decoded([line], decode) ==
      (if LineMessage(line, decode).Some? then [LineMessage(line, decode).value] else [])
  {
    assert [line][..0] == [];
  }

  lemma SkippedLineIsInert(a: seq<string>, line: string, b: seq<string>, decode: Decoder)
    requires LineMessage(line, decode).None?
    ensures Decoded(a + [line] + b, decode) == Decoded(a + b, decode)
  {
    DecodedOne(line, decode);
    DecodedAppend(a, [line], decode);
    DecodedAppend(a + [line], b, decode);
    DecodedAppend(a, b, decode);
  }

  predicate IsErrorDiagnostic(m: TerraformMessage) {
    m.msgType == "diagnostic" && m.diagnostic.Some? && m.diagnostic.value.severity == "error"
  }

  /** The diagnostics of the messages, of any severity, in order. */
  function DiagnosticsOf(ms: seq<TerraformMessage>): seq<Diagnostic>
    decreases |ms|
  {
    if ms == [] then []
    else (if ms[0].msgType == "diagnostic" && ms[0].diagnostic.Some? then [ms[0].diagnostic.value] else [])
         + DiagnosticsOf(ms[1..])
  }

  lemma {:induction false} DiagnosticsOfSnoc(ms: seq<TerraformMessage>, m: TerraformMessage)
    ensures DiagnosticsOf(ms + [m]) ==
      DiagnosticsOf(ms) + (if m.msgType == "diagnostic" && m.diagnostic.Some? then [m.diagnostic.value] else [])
    decreases |ms|
  {
    if ms == [] {
      assert [m][1..] == [];
    } else {
      assert (ms + [m])[1..] == ms[1..] + [m];
      DiagnosticsOfSnoc(ms[1..], m);
    }
  }

  /** One message's effect on each field of the result. */
  lemma AbsorbFields(r: ParseResult, m: TerraformMessage)
    ensures Absorb(r, m).messages == r.messages + [m]
    ensures Absorb(r, m).errors ==
      r.errors + (if m.msgType == "diagnostic" && m.diagnostic.Some? then [m.diagnostic.value] else [])
    ensures Absorb(r, m).success == (r.success && !IsErrorDiagnostic(m))
    ensures Absorb(r, m).version == if m.msgType == "version" then m.terraform else r.version
    ensures Absorb(r, m).changes ==
      if m.msgType == "change_summary" && m.changes.Some? then m.changes else r.changes
  {
  }

  /** The fold keeps every decoded message and every diagnostic, in order. */
  lemma {:induction false} SummarizeKeepsAll(ms: seq<TerraformMessage>)
    ensures Summarize(ms).messages == ms
    ensures Summarize(ms).errors == DiagnosticsOf(ms)
    decreases |ms|
  {
    if ms != [] {
      var init, m := ms[..|ms| - 1], ms[|ms| - 1];
      SummarizeKeepsAll(init);
      AbsorbFields(Summarize(init), m);
      DiagnosticsOfSnoc(init, m);
      assert ms == init + [m];
    }
  }

  /** Success holds exactly when no message is a diagnostic of severity
      "error". */
  lemma {:induction false} SummarizeSuccess(ms: seq<TerraformMessage>)
    ensures Summarize(ms).success <==> forall i :: 0 <= i < |ms| ==> !IsErrorDiagnostic(ms[i])
    decreases |ms|
  {
    if ms != [] {
      var init, m := ms[..|ms| - 1], ms[|ms| - 1];
      SummarizeSuccess(init);
      AbsorbFields(Summarize(init), m);
      assert forall i :: 0 <= i < |init| ==> init[i] == ms[i];
    }
  }

  /** The version is the one of the last `version` record. */
  lemma {:induction false} SummarizeVersion(ms: seq<TerraformMessage>, i: nat)
    requires i < |ms| && ms[i].msgType == "version"
    requires forall j :: i < j < |ms| ==> ms[j].msgType != "version"
    ensures Summarize(ms).version == ms[i].terraform
    decreases |ms|
  {
    var init, m := ms[..|ms| - 1], ms[|ms| - 1];
    AbsorbFields(Summarize(init), m);
    if i < |init| {
      assert init[i] == ms[i];
      assert forall j :: i < j < |init| ==> init[j] == ms[j];
      SummarizeVersion(init, i);
    }
  }

  /** Without a `version` record the version is "". */
  lemma {:induction false} SummarizeNoVersion(ms: seq<TerraformMessage>)
    requires forall i :: 0 <= i < |ms| ==> ms[i].msgType != "version"
    ensures Summarize(ms).version == ""
    decreases |ms|
  {
    if ms != [] {
      var init, m := ms[..|ms| - 1], ms[|ms| - 1];
      AbsorbFields(Summarize(init), m);
      assert forall i :: 0 <= i < |init| ==> init[i] == ms[i];
      SummarizeNoVersion(init);
    }
  }

  predicate CarriesChanges(m: TerraformMessage) {
    m.msgType == "change_summary" && m.changes.Some?
  }

  /** The change summary is the one of the last `change_summary` record that
      carries one. */
  lemma {:induction false} SummarizeChanges(ms: seq<TerraformMessage>, i: nat)
    requires i < |ms| && CarriesChanges(ms[i])
    requires forall j :: i < j < |ms| ==> !CarriesChanges(ms[j])
    ensures Summarize(ms).changes == ms[i].changes
    decreases |ms|
  {
    var init, m := ms[..|ms| - 1], ms[|ms| - 1];
    AbsorbFields(Summarize(init), m);
    if i < |init| {
      assert !CarriesChanges(m);
      assert init[i] == ms[i];
      assert forall j :: i < j < |init| ==> init[j] == ms[j];
      SummarizeChanges(init, i);
    }
  }

  /** Without such a record there is no change summary. */
  lemma {:induction false} SummarizeNoChanges(ms: seq<TerraformMessage>)
    requires forall i :: 0 <= i < |ms| ==> !CarriesChanges(ms[i])
    ensures Summarize(ms).changes == None
    decreases |ms|
  {
    if ms != [] {
      var init, m := ms[..|ms| - 1], ms[|ms| - 1];
      AbsorbFields(Summarize(init), m);
      assert forall i :: 0 <= i < |init| ==> init[i] == ms[i];
      SummarizeNoChanges(init);
    }
  }

  /** The messages of ParseJSONOutput are exactly the decoded lines, and it
      succeeds exactly when none of them is an error diagnostic. */
  lemma ParseOutputMeaning(output: string, decode: Decoder)
    ensures ParseOutput(output, decode).messages == Decoded(Text.Split(output, '\n'), decode)
    ensures ParseOutput(output, decode).success <==>
      forall m :: m in Decoded(Text.Split(output, '\n'), decode) ==> !IsErrorDiagnostic(m)
  {
    var ms := Decoded(Text.Split(output, '\n'), decode);
    SummarizeKeepsAll(ms);
    SummarizeSuccess(ms);
    assert forall m :: m in ms ==> exists i :: 0 <= i < |ms| && ms[i] == m;
  }

  // ----- the text form of the plan summary -----

  /** `\s` of Go's regexp: space, tab, newline, form feed, carriage return. */
  predicate ReSpace(c: char) {
    c == ' ' || c == '\t' || c == '\n' || c == '\U{0C}' || c == '\r'
  }

  function SpaceRun(s: string): (n: nat)
    ensures n <= |s| && forall k :: 0 <= k < n ==> ReSpace(s[k])
    ensures n < |s| ==> !ReSpace(s[n])
    decreases |s|
  {
    if s != [] && ReSpace(s[0]) then 1 + SpaceRun(s[1..]) else 0
  }

  function DigitRun(s: string): (n: nat)
    ensures n <= |s| && Text.AllDigits(s[..n])
    ensures n < |s| ==> !Text.IsDigit(s[n])
    decreases |s|
  {
    if s != [] && Text.IsDigit(s[0]) then 1 + DigitRun(s[1..]) else 0
  }

  /** What `(\d+)` captures: a nonempty run of decimal digits. */
  predicate IsCount(g: string) {
    |g| > 0 && Text.AllDigits(g)
  }

  /** The literal parts of a pattern of the form
      `lead\s*(\d+)\s*add\s*(\d+)\s*change\s*(\d+)\s*destroy`. */
  datatype Pattern = Pattern(lead: string, add: string, change: string, destroy: string)

  /** The parser's `Plan:\s*(\d+)\s*to add,\s*(\d+)\s*to change,\s*(\d+)\s*to destroy`. */
  const PlanPattern: Pattern := Pattern("Plan:", "to add,", "to change,", "to destroy")

  /** A literal that neither `\s` nor `\d` can run into. With such literals a
      greedy scan from left to right is the regexp's only way to match. */
  predicate Firm(lit: string) {
    lit != [] && !ReSpace(lit[0]) && !Text.IsDigit(lit[0])
  }

  predicate FirmPattern(p: Pattern) {
    Firm(p.lead) && Firm(p.add) && Firm(p.change) && Firm(p.destroy)
  }

  /** Submatches 1 to 3 of a match. */
  datatype Groups = Groups(add: string, change: string, destroy: string)

  /** `lit` at the start of `s`: the rest of `s` after it. */
  function Expect(s: string, lit: string): (r: Option<string>)
    ensures r.Some? <==> Text.HasPrefix(s, lit)
    ensures r.Some? ==> s == lit + r.value
  {
    if Text.HasPrefix(s, lit) then Some(s[|lit|..]) else None
  }

  /** `\s*(\d+)\s*` at the start of `s`: the digits and the rest. */
  function Group(s: string): (r: Option<(string, string)>)
    ensures r.Some? ==> IsCount(r.value.0)
  {
    var a := s[SpaceRun(s)..];
    var n := DigitRun(a);
    if n == 0 then None
    else
      var b := a[n..];
      Some((a[..n], b[SpaceRun(b)..]))
  }

  /** A literal and then `\s*(\d+)\s*` at the start of `s`: the digits and
      the rest. */
  function Stage(s: string, lit: string): (r: Option<(string, string)>)
    ensures r.Some? ==> IsCount(r.value.0) && Text.HasPrefix(s, lit)
  {
    var e := Expect(s, lit);
    if e.None? then None else Group(e.value)
  }

  /** The pattern matched at the start of `s`: its three groups. */
  function MatchAt(s: string, p: Pattern): (r: Option<Groups>)
    ensures r.Some? ==> IsCount(r.value.add) && IsCount(r.value.change) && IsCount(r.value.destroy)
    ensures r.Some? ==> Text.HasPrefix(s, p.lead)
  {
    var g1 := Stage(s, p.lead);
    if g1.None? then None else
    var g2 := Stage(g1.value.1, p.add);
    if g2.None? then None else
    var g3 := Stage(g2.value.1, p.change);
    if g3.None? then None else
    var e := Expect(g3.value.1, p.destroy);
    if e.None? then None else
    Some(Groups(g1.value.0, g2.value.0, g3.value.0))
  }

  /** `FindStringSubmatch`: the groups of the leftmost match. */
  function FindIn(s: string, p: Pattern): (r: Option<Groups>)
    ensures r.Some? ==> IsCount(r.value.add) && IsCount(r.value.change) && IsCount(r.value.destroy)
    decreases |s|
  {
    var m := MatchAt(s, p);
    if m.Some? || s == [] then m else FindIn(s[1..], p)
  }

  /** Where the pattern does not match at the start of `s`, it matches at no
      position of `s` exactly when it matches at no position of its tail. */
  lemma NoneShift(s: string, p: Pattern)
    requires s != [] && MatchAt(s, p).None?
    ensures (forall k :: 0 <= k <= |s| ==> MatchAt(s[k..], p).None?) <==>
      (forall k :: 0 <= k <= |s[1..]| ==> MatchAt(s[1..][k..], p).None?)
  {
    assert s[0..] == s;
    assert forall k :: 1 <= k <= |s| ==> s[1..][k - 1..] == s[k..];
  }

  /** FindIn finds nothing exactly when the pattern matches at no position. */
  lemma {:induction false} FindInNone(s: string, p: Pattern)
    ensures FindIn(s, p).None? <==> forall k :: 0 <= k <= |s| ==> MatchAt(s[k..], p).None?
    decreases |s|
  {
    if MatchAt(s, p).Some? {
      assert s[0..] == s;
    } else if s == [] {
      assert s[0..] == s;
    } else {
      FindInNone(s[1..], p);
      NoneShift(s, p);
    }
  }

  /** A match FindIn finds is the match at the first position where the
      pattern matches. */
  lemma {:induction false} FindInFirst(s: string, p: Pattern)
    requires FindIn(s, p).Some?
    ensures exists k :: (0 <= k <= |s| && MatchAt(s[k..], p) == FindIn(s, p) &&
      forall k' :: 0 <= k' < k ==> MatchAt(s[k'..], p).None?)
    decreases |s|
  {
    assert s[0..] == s;
    if MatchAt(s, p).None? && s != [] {
      var r := s[1..];
      assert FindIn(s, p) == FindIn(r, p);
      FindInFirst(r, p);
      var k :| 0 <= k <= |r| && MatchAt(r[k..], p) == FindIn(s, p) &&
        (forall k' :: 0 <= k' < k ==> MatchAt(r[k'..], p).None?);
      assert r[k..] == s[k + 1..];
      forall k' | 0 <= k' < k + 1
        ensures MatchAt(s[k'..], p).None?
      {
        if k' > 0 {
          assert r[k' - 1..] == s[k'..];
        }
      }
    }
  }

  /** FindIn finds nothing exactly when the pattern matches at no position,
      and otherwise the match at the first position where it matches. */
  lemma FindInMeaning(s: string, p: Pattern)
    ensures FindIn(s, p).None? <==> forall k :: 0 <= k <= |s| ==> MatchAt(s[k..], p).None?
    ensures FindIn(s, p).Some? ==>
      exists k :: (0 <= k <= |s| && MatchAt(s[k..], p) == FindIn(s, p) &&
        forall k' :: 0 <= k' < k ==> MatchAt(s[k'..], p).None?)
  {
    FindInNone(s, p);
    if FindIn(s, p).Some? {
      FindInFirst(s, p);
    }
  }

  function FindPlan(s: string): Option<Groups> {
    FindIn(s, PlanPattern)
  }

  /** ParsePlan: the structured change summary when the JSON lines carry
      one, otherwise the counts of the first text summary, otherwise zeros.
      A match always has four submatches (the whole match and three groups),
      so the length test of the source holds exactly when there is a match. */
  function ParsePlan(output: string, decode: Decoder): (info: PlanInfo)
    ensures ParseOutput(output, decode).changes.Some? ==>
      var c := ParseOutput(output, decode).changes.value;
      info == PlanInfo(c.add, c.change, c.remove)
    ensures ParseOutput(output, decode).changes.None? && FindPlan(output).None? ==> info == PlanInfo(0, 0, 0)
    ensures ParseOutput(output, decode).changes.None? ==>
      0 <= info.toAdd <= Text.MaxInt64 && 0 <= info.toChange <= Text.MaxInt64 && 0 <= info.toDestroy <= Text.MaxInt64
  {
    var result := ParseOutput(output, decode);
    if result.changes.Some? then
      PlanInfo(result.changes.value.add, result.changes.value.change, result.changes.value.remove)
    else
      var matches := FindPlan(output);
      if matches.Some? then
        var g := matches.value;
        AtoiOfCount(g.add);
        AtoiOfCount(g.change);
        AtoiOfCount(g.destroy);
        PlanInfo(Text.AtoiValue(g.add), Text.AtoiValue(g.change), Text.AtoiValue(g.destroy))
      else PlanInfo(0, 0, 0)
  }

  /** `strconv.Atoi` of a captured count is never negative. */
  lemma AtoiOfCount(g: string)
    requires IsCount(g)
    ensures 0 <= Text.AtoiValue(g) <= Text.MaxInt64
  {
    assert Text.IsDigit(g[0]);
  }

  /** The summary line as printed from three counts, e.g.
      "Plan: 1 to add, 2 to change, 3 to destroy" for the parser's pattern. */
  function PlanLine(p: Pattern, a: nat, c: nat, d: nat): string {
    p.lead + " " + Text.NatToString(a) + " " + p.add + " " + Text.NatToString(c) + " " +
    p.change + " " + Text.NatToString(d) + " " + p.destroy
  }

  lemma SpaceRunOne(x: string)
    requires x != [] && !ReSpace(x[0])
    ensures SpaceRun(" " + x) == 1
  {
    assert (" " + x)[1..] == x;
  }

  lemma {:induction false} DigitRunOf(d: string, x: string)
    requires Text.AllDigits(d)
    requires x == [] || !Text.IsDigit(x[0])
    ensures DigitRun(d + x) == |d|
    decreases |d|
  {
    if d != [] {
      assert (d + x)[1..] == d[1..] + x;
      DigitRunOf(d[1..], x);
    } else {
      assert d + x == x;
    }
  }

  /** `\s*(\d+)\s*` reads back one printed count between single spaces. */
  lemma GroupOf(n: nat, x: string)
    requires x != [] && !ReSpace(x[0]) && !Text.IsDigit(x[0])
    ensures Group(" " + Text.NatToString(n) + " " + x) == Some((Text.NatToString(n), x))
  {
    var d := Text.NatToString(n);
    Text.NatToStringDigits(n);
    var s := " " + d + " " + x;
    assert s == " " + (d + " " + x);
    assert !ReSpace(d[0]);
    SpaceRunOne(d + " " + x);
    var a := s[1..];
    assert a == d + (" " + x);
    DigitRunOf(d, " " + x);
    assert a[..|d|] == d;
    var b := a[|d|..];
    assert b == " " + x;
    SpaceRunOne(x);
    assert b[1..] == x;
  }

  lemma ExpectLit(lit: string, x: string)
    ensures Expect(lit + x, lit) == Some(x)
  {
    assert (lit + x)[..|lit|] == lit;
    assert (lit + x)[|lit|..] == x;
  }

  /** A literal, one printed count and the next literal read back. */
  lemma StageOf(lit: string, n: nat, next: string, y: string)
    requires Firm(next)
    ensures Stage(lit + (" " + Text.NatToString(n) + " " + (next + y)), lit) ==
      Some((Text.NatToString(n), next + y))
  {
    ExpectLit(lit, " " + Text.NatToString(n) + " " + (next + y));
    assert (next + y)[0] == next[0];
    GroupOf(n, next + y);
  }

  lemma PlanLineShape(p: Pattern, na: string, nc: string, nd: string, rest: string)
    ensures p.lead + " " + na + " " + p.add + " " + nc + " " + p.change + " " + nd + " " + p.destroy + rest ==
      p.lead + (" " + na + " " + (p.add + (" " + nc + " " + (p.change + (" " + nd + " " + (p.destroy + rest))))))
  {
  }

  /** The summary round-trips: the line printed from three counts is matched
      at its start and gives the printed counts back. */
  lemma PlanLineMatches(p: Pattern, a: nat, c: nat, d: nat, rest: string)
    requires FirmPattern(p)
    ensures MatchAt(PlanLine(p, a, c, d) + rest, p) ==
      Some(Groups(Text.NatToString(a), Text.NatToString(c), Text.NatToString(d)))
  {
    var na, nc, nd := Text.NatToString(a), Text.NatToString(c), Text.NatToString(d);
    var x2 := p.change + (" " + nd + " " + (p.destroy + rest));
    var x1 := p.add + (" " + nc + " " + x2);
    PlanLineShape(p, na, nc, nd, rest);
    StageOf(p.lead, a, p.add, " " + nc + " " + x2);
    StageOf(p.add, c, p.change, " " + nd + " " + (p.destroy + rest));
    StageOf(p.change, d, p.destroy, rest);
    ExpectLit(p.destroy, rest);
  }

  /** Text before the summary without the first character of the pattern
      cannot hold a match. */
  lemma {:induction false} FindAfter(prefix: string, s: string, p: Pattern)
    requires p.lead != [] && p.lead[0] !in prefix
    ensures FindIn(prefix + s, p) == FindIn(s, p)
    decreases |prefix|
  {
    if prefix != [] {
      assert (prefix + s)[1..] == prefix[1..] + s;
      assert (prefix + s)[0] == prefix[0];
      assert MatchAt(prefix + s, p).None?;
      FindAfter(prefix[1..], s, p);
    } else {
      assert prefix + s == s;
    }
  }

  lemma {:induction false} SplitChars(s: string, sep: char, c: char)
    requires c !in s
    ensures forall k :: 0 <= k < |Text.Split(s, sep)| ==> c !in Text.Split(s, sep)[k]
    decreases |s|
  {
    if s != [] {
      SplitChars(s[1..], sep, c);
    }
  }

  /** A line without `{` decodes to no message. */
  lemma NoBraceLine(l: string, decode: Decoder)
    requires '{' !in l
    ensures LineMessage(l, decode).None?
  {
    var t := Text.TrimSpace(l);
    assert '{' !in t by {
      assert t == Text.TrimLeft(l)[..|t|];
      assert Text.TrimLeft(l) == l[|l| - |Text.TrimLeft(l)|..];
    }
    if t != "" {
      assert t[0] != '{';
      assert !Text.HasPrefix(t, "{");
    }
  }

  /** Lines without `{` decode to no message at all. */
  lemma {:induction false} DecodedNone(lines: seq<string>, decode: Decoder)
    requires forall k :: 0 <= k < |lines| ==> '{' !in lines[k]
    ensures Decoded(lines, decode) == []
    decreases |lines|
  {
    if lines != [] {
      NoBraceLine(lines[|lines| - 1], decode);
      var init := lines[..|lines| - 1];
      assert forall k :: 0 <= k < |init| ==> init[k] == lines[k];
      DecodedNone(init, decode);
    }
  }

  /** Output without `{` decodes to no message, so it carries no structured
      change summary. */
  lemma NoJsonRecord(out: string, decode: Decoder)
    requires '{' !in out
    ensures ParseOutput(out, decode).messages == [] && ParseOutput(out, decode).changes == None
  {
    SplitChars(out, '\n', '{');
    DecodedNone(Text.Split(out, '\n'), decode);
  }

  /** The printed summary is found after any text that lacks the first
      character of the pattern. */
  lemma FindPrinted(before: string, p: Pattern, a: nat, c: nat, d: nat, after: string)
    requires FirmPattern(p) && p.lead[0] !in before
    ensures FindIn(before + PlanLine(p, a, c, d) + after, p) ==
      Some(Groups(Text.NatToString(a), Text.NatToString(c), Text.NatToString(d)))
  {
    var line := PlanLine(p, a, c, d);
    assert before + line + after == before + (line + after);
    FindAfter(before, line + after, p);
    PlanLineMatches(p, a, c, d, after);
  }

  /** Plain text output carries no JSON record, so ParsePlan reads the text
      summary: the line printed from three counts gives them back, after any
      text that does not mention `P`. */
  lemma ParsePlanText(before: string, a: nat, c: nat, d: nat, after: string, decode: Decoder)
    requires a <= Text.MaxInt64 && c <= Text.MaxInt64 && d <= Text.MaxInt64
    requires 'P' !in before
    requires '{' !in before + PlanLine(PlanPattern, a, c, d) + after
    ensures ParsePlan(before + PlanLine(PlanPattern, a, c, d) + after, decode) == PlanInfo(a, c, d)
  {
    var out := before + PlanLine(PlanPattern, a, c, d) + after;
    NoJsonRecord(out, decode);
    assert FirmPattern(PlanPattern) && PlanPattern.lead[0] == 'P';
    FindPrinted(before, PlanPattern, a, c, d, after);
    Text.AtoiOfPrinted(a);
    Text.AtoiOfPrinted(c);
    Text.AtoiOfPrinted(d);
  }

  // ----- ParseTfstate -----

  /** One resource instance as the state walk sees it. */
  datatype Inst = Inst(rtype: string, name: string, attrs: Option<Json.Json>)

  /** The instances of a resource of type `t` called `n`. */
  function Instances(t: string, n: string, items: seq<Json.Json>): (r: seq<Inst>)
    ensures |r| == |items|
    ensures forall k :: 0 <= k < |items| ==> r[k] == Inst(t, n, Json.Key(items[k], "attributes"))
  {
    seq(|items|, k requires 0 <= k < |items| => Inst(t, n, Json.Key(items[k], "attributes")))
  }

  function InstancesOf(resource: Json.Json): seq<Inst> {
    Instances(Json.String(Json.Key(resource, "type")), Json.String(Json.Key(resource, "name")),
      Json.ForEach(Json.Key(resource, "instances")))
  }

  function AllInstances(resources: seq<Json.Json>): seq<Inst>
    decreases |resources|
  {
    if resources == [] then []
    else AllInstances(resources[..|resources| - 1]) + InstancesOf(resources[|resources| - 1])
  }

  /** The key `<type>.<name>.<field>` of an extracted attribute. */
  function AttrKey(rtype: string, name: string, field: string): string {
    rtype + "." + name + "." + field
  }

  /** The entries one instance writes: `<type>.<name>.id` and `.arn`, each
      only when its attributes have that key. */
  function AddInstance(m: map<string, string>, i: Inst): map<string, string> {
    if i.attrs.None? then m
    else
      var a := i.attrs.value;
      var m1 := if Json.Key(a, "id").Some? then m[AttrKey(i.rtype, i.name, "id") := Json.String(Json.Key(a, "id"))] else m;
      if Json.Key(a, "arn").Some? then m1[AttrKey(i.rtype, i.name, "arn") := Json.String(Json.Key(a, "arn"))] else m1
  }

  function Collect(m: map<string, string>, insts: seq<Inst>): map<string, string>
    decreases |insts|
  {
    if insts == [] then m else AddInstance(Collect(m, insts[..|insts| - 1]), insts[|insts| - 1])
  }

  lemma {:induction false} CollectAppend(m: map<string, string>, a: seq<Inst>, b: seq<Inst>)
    ensures Collect(m, a + b) == Collect(Collect(m, a), b)
    decreases |b|
  {
    if b == [] {
      assert a + b == a;
    } else {
      assert (a + b)[..|a + b| - 1] == a + b[..|b| - 1];
      CollectAppend(m, a, b[..|b| - 1]);
    }
  }

  /** The attributes ParseTfstate extracts from a state document. */
  function TfstateAttrs(doc: Json.Json): map<string, string> {
    Collect(map[], AllInstances(Json.ForEach(Json.Key(doc, "resources"))))
  }

  /** One more resource adds its instances after those before it. */
  lemma CollectStep(rs: seq<Json.Json>, i: nat)
    requires i < |rs|
    ensures Collect(map[], AllInstances(rs[..i + 1])) ==
      Collect(Collect(map[], AllInstances(rs[..i])), InstancesOf(rs[i]))
  {
    assert rs[..i + 1][..i] == rs[..i];
    CollectAppend(map[], AllInstances(rs[..i]), InstancesOf(rs[i]));
  }

  method ParseTfstate(doc: Json.Json) returns (attrs: map<string, string>)
    ensures attrs == TfstateAttrs(doc)
  {
    attrs := map[];
    var resources := Json.Key(doc, "resources");
    if resources.None? {
      return;
    }
    var rs := Json.ForEach(resources);
    var i := 0;
    while i < |rs|
      invariant 0 <= i <= |rs|
      invariant attrs == Collect(map[], AllInstances(rs[..i]))
    {
      CollectStep(rs, i);
      attrs := AddResource(attrs, rs[i]);
      i := i + 1;
    }
    assert rs[..i] == rs;
  }

  /** The body of the resource loop: the type, the name and the instances of
      one resource. */
  method AddResource(attrs0: map<string, string>, resource: Json.Json) returns (attrs: map<string, string>)
    ensures attrs == Collect(attrs0, InstancesOf(resource))
  {
    var resourceType := Json.String(Json.Key(resource, "type"));
    var name := Json.String(Json.Key(resource, "name"));
    var instances := Json.ForEach(Json.Key(resource, "instances"));
    attrs := AddInstances(attrs0, resourceType, name, instances);
  }

  /** The walk over the instances of one resource. */
  method AddInstances(attrs0: map<string, string>, resourceType: string, name: string, instances: seq<Json.Json>)
    returns (attrs: map<string, string>)
    ensures attrs == Collect(attrs0, Instances(resourceType, name, instances))
  {
    ghost var insts := Instances(resourceType, name, instances);
    attrs := attrs0;
    var j := 0;
    while j < |instances|
      invariant 0 <= j <= |instances|
      invariant attrs == Collect(attrs0, insts[..j])
    {
      assert insts[..j + 1][..j] == insts[..j];
      attrs := AddAttributes(attrs, resourceType, name, instances[j]);
      j := j + 1;
    }
    assert insts[..j] == insts;
  }

  /** The body of the instance loop: the `id` and `arn` of one instance's
      attributes, each when present. */
  method AddAttributes(attrs0: map<string, string>, resourceType: string, name: string, instance: Json.Json)
    returns (attrs: map<string, string>)
    ensures attrs == AddInstance(attrs0, Inst(resourceType, name, Json.Key(instance, "attributes")))
  {
    attrs := attrs0;
    var attributes := Json.Key(instance, "attributes");
    if attributes.Some? {
      var id := Json.Key(attributes.value, "id");
      if id.Some? {
        attrs := attrs[AttrKey(resourceType, name, "id") := Json.String(id)];
      }
      var arn := Json.Key(attributes.value, "arn");
      if arn.Some? {
        attrs := attrs[AttrKey(resourceType, name, "arn") := Json.String(arn)];
      }
    }
  }

  /** Whether instance `i` writes key `k`. */
  predicate Writes(i: Inst, k: string) {
    i.attrs.Some? &&
    ((Json.Key(i.attrs.value, "id").Some? && k == AttrKey(i.rtype, i.name, "id")) ||
     (Json.Key(i.attrs.value, "arn").Some? && k == AttrKey(i.rtype, i.name, "arn")))
  }

  /** The value instance `i` writes under `k`. */
  function WrittenValue(i: Inst, k: string): string
    requires Writes(i, k)
  {
    var a := i.attrs.value;
    if Json.Key(a, "arn").Some? && k == AttrKey(i.rtype, i.name, "arn") then Json.String(Json.Key(a, "arn"))
    else Json.String(Json.Key(a, "id"))
  }

  lemma IdArnKeysDiffer(i: Inst)
    ensures AttrKey(i.rtype, i.name, "id") != AttrKey(i.rtype, i.name, "arn")
  {
    var ki, kj := AttrKey(i.rtype, i.name, "id"), AttrKey(i.rtype, i.name, "arn");
    assert ki[|ki| - 1] == 'd';
    assert kj[|kj| - 1] == 'n';
  }

  /** What one instance does to the map: the keys it writes get its values,
      every other key is untouched. */
  lemma AddInstanceMeaning(m: map<string, string>, i: Inst, k: string)
    ensures k in AddInstance(m, i) <==> k in m || Writes(i, k)
    ensures Writes(i, k) ==> AddInstance(m, i)[k] == WrittenValue(i, k)
    ensures !Writes(i, k) && k in m ==> AddInstance(m, i)[k] == m[k]
  {
    IdArnKeysDiffer(i);
  }

  /** A key is extracted exactly when some instance writes it. */
  lemma {:induction false} CollectKeys(insts: seq<Inst>, k: string)
    ensures k in Collect(map[], insts) <==> exists j :: 0 <= j < |insts| && Writes(insts[j], k)
    decreases |insts|
  {
    if insts != [] {
      var init := insts[..|insts| - 1];
      CollectKeys(init, k);
      assert forall j :: 0 <= j < |init| ==> init[j] == insts[j];
      AddInstanceMeaning(Collect(map[], init), insts[|insts| - 1], k);
    }
  }

  /** The value of an extracted key is what the last instance writing it
      wrote. */
  lemma {:induction false} CollectValue(insts: seq<Inst>, k: string, j: nat)
    requires j < |insts| && Writes(insts[j], k)
    requires forall j' :: j < j' < |insts| ==> !Writes(insts[j'], k)
    ensures k in Collect(map[], insts) && Collect(map[], insts)[k] == WrittenValue(insts[j], k)
    decreases |insts|
  {
    var init := insts[..|insts| - 1];
    var m := Collect(map[], init);
    AddInstanceMeaning(m, insts[|insts| - 1], k);
    if j < |init| {
      assert init[j] == insts[j];
      assert forall j' :: j < j' < |init| ==> init[j'] == insts[j'];
      CollectValue(init, k, j);
    }
  }

  /** ParseTfstate writes only `<type>.<name>.id` and `.arn` keys of
      instances that have those attributes, each with the value of the last
      instance that has it; a document without resources gives an empty map. */
  lemma TfstateMeaning(doc: Json.Json, k: string)
    ensures var insts := AllInstances(Json.ForEach(Json.Key(doc, "resources")));
      k in TfstateAttrs(doc) <==> exists j :: 0 <= j < |insts| && Writes(insts[j], k)
    ensures Json.Key(doc, "resources").None? ==> TfstateAttrs(doc) == map[]
  {
    var insts := AllInstances(Json.ForEach(Json.Key(doc, "resources")));
    CollectKeys(insts, k);
    if Json.Key(doc, "resources").None? {
      assert insts == [];
    }
  }

  lemma TfstateValue(doc: Json.Json, k: string, j: nat)
    requires var insts := AllInstances(Json.ForEach(Json.Key(doc, "resources")));
      j < |insts| && Writes(insts[j], k) && forall j' :: j < j' < |insts| ==> !Writes(insts[j'], k)
    ensures var insts := AllInstances(Json.ForEach(Json.Key(doc, "resources")));
      k in TfstateAttrs(doc) && TfstateAttrs(doc)[k] == WrittenValue(insts[j], k)
  {
    CollectValue(AllInstances(Json.ForEach(Json.Key(doc, "resources"))), k, j);
  }

  // ----- ExtractAttributes -----

  /** Each name whose path exists gets the path's value; names whose path is
      missing are simply absent. */
  method ExtractAttributes(doc: Json.Json, paths: map<string, string>) returns (result: map<string, string>)
    ensures result.Keys <= paths.Keys
    ensures forall name :: name in result <==> name in paths && Json.Get(doc, paths[name]).Some?
    ensures forall name :: name in result ==> result[name] == Json.String(Json.Get(doc, paths[name]))
  {
    result := map[];
    var todo := paths.Keys;
    while todo != {}
      invariant todo <= paths.Keys
      invariant forall name :: name in result <==> name in paths && name !in todo && Json.Get(doc, paths[name]).Some?
      invariant forall name :: name in result ==> result[name] == Json.String(Json.Get(doc, paths[name]))
      decreases todo
    {
      var name :| name in todo;
      var value := Json.Get(doc, paths[name]);
      if value.Some? {
        result := result[name := Json.String(value)];
      }
      todo := todo - {name};
    }
  }
}
