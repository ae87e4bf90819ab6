/** The command runner (pkg/executor/cmd/runner.go): its timeout default,
    the classification of a finished subprocess into a `Result`, the
    line-splitting writer behind `ExecWithHandler`, and `StripANSI`.
    Starting, waiting for and killing the process are not modelled: what the
    process did is given as an `Outcome`. */
module Runner {
  import opened Wrappers
  import Text

  const Nanosecond: int := 1
  const Microsecond: int := 1_000
  const Millisecond: int := 1_000_000
  const Second: int := 1_000_000_000
  const Minute: int := 60 * Second
  const Hour: int := 60 * Minute

  const Esc: char := '\U{1B}'

  const EmptyCommand: string := "empty command"

  /** A runner holds only its timeout. */
  datatype Runner = Runner(timeout: int)

  datatype Result = Result(output: string, exitCode: int, duration: int, error: Option<string>)

  /** NewRunner: a zero timeout means 30 minutes; any other is kept. */
  function NewRunner(timeout: int): (r: Runner)
    ensures timeout == 0 ==> r.timeout == 30 * Minute
    ensures timeout != 0 ==> r.timeout == timeout
  {
    Runner(if timeout == 0 then 30 * Minute else timeout)
  }

  // ----- Go's time.Duration.String, for the timeout message -----

  function Pow10(n: nat): (p: nat)
    ensures p >= 1
  {
    if n == 0 then 1 else 10 * Pow10(n - 1)
  }

  /** Exactly `width` decimal digits of `v`, with leading zeros. */
  function PaddedDigits(v: nat, width: nat): (s: string)
    ensures |s| == width && Text.AllDigits(s)
  {
    if width == 0 then [] else PaddedDigits(v / 10, width - 1) + [Text.DigitChar(v % 10)]
  }

  function TrimTrailingZeros(s: string): (r: string)
    ensures r == [] || r[|r| - 1] != '0'
    ensures |r| <= |s| && r == s[..|r|]
    decreases |s|
  {
    if s != [] && s[|s| - 1] == '0' then TrimTrailingZeros(s[..|s| - 1]) else s
  }

  /** The fraction `v / 10^prec` after the point, without trailing zeros and
      without the point when it is zero. */
  function Fraction(v: nat, prec: nat): string {
    var digits := TrimTrailingZeros(PaddedDigits(v % Pow10(prec), prec));
    if digits == [] then [] else "." + digits
  }

  /** `%v` of a time.Duration given in nanoseconds. */
  function DurationString(d: int): string {
    var u: nat := if d < 0 then -d else d;
    var sign := if d < 0 then "-" else "";
    if u == 0 then "0s"
    else if u < Second then
      var (prec, unit) :=
        if u < Microsecond then (0, "ns")
        else if u < Millisecond then (3, "µs")
        else (6, "ms");
      sign + Text.NatToString(u / Pow10(prec)) + Fraction(u, prec) + unit
    else
      var secs := u / Second;
      var tail := Text.NatToString(secs % 60) + Fraction(u, 9) + "s";
      if secs / 60 == 0 then sign + tail
      else
        var mins := secs / 60;
        var withMins := Text.NatToString(mins % 60) + "m" + tail;
        if mins / 60 == 0 then sign + withMins
        else sign + Text.NatToString(mins / 60) + "h" + withMins
  }

  lemma PaddedZero(width: nat)
    ensures PaddedDigits(0, width) == seq(width, _ => '0')
  {
    if width > 0 {
      PaddedZero(width - 1);
    }
  }

  lemma TrimAllZeros(width: nat)
    ensures TrimTrailingZeros(seq(width, _ => '0')) == []
  {
    if width > 0 {
      assert seq(width, _ => '0')[..width - 1] == seq(width - 1, _ => '0');
      TrimAllZeros(width - 1);
    }
  }

  lemma FractionOfWhole(u: nat)
    requires u % 1_000_000_000 == 0
    ensures Fraction(u, 9) == []
  {
    assert Pow10(9) == 1_000_000_000 by {
      assert Pow10(3) == 1000;
      assert Pow10(6) == 1000 * Pow10(3);
    }
    PaddedZero(9);
    TrimAllZeros(9);
  }

  /** The default runner timeout prints as "30m0s" and a five-second one as
      "5s", as in "command timed out after 30m0s". */
  lemma DurationExamples()
    ensures DurationString(30 * Minute) == "30m0s"
    ensures DurationString(5 * Second) == "5s"
  {
    HalfHour();
    FiveSeconds();
  }

  lemma HalfHour()
    ensures DurationString(30 * Minute) == "30m0s"
  {
    FractionOfWhole(30 * Minute);
    assert Text.NatToString(0) == "0";
    assert Text.NatToString(30) == "30" by {
      assert Text.NatToString(3) == "3";
    }
  }

  lemma FiveSeconds()
    ensures DurationString(5 * Second) == "5s"
  {
    FractionOfWhole(5 * Second);
    assert Text.NatToString(5) == "5";
  }

  function TimedOut(timeout: int): string {
    "command timed out after " + DurationString(timeout)
  }

  // ----- classification of a finished process -----

  datatype Stream = Stdout | Stderr

  /** One write of the process to one of its output streams. */
  datatype Chunk = Chunk(stream: Stream, data: string)

  /** The error `cmd.Run` returned: the process ran and exited unsuccessfully
      (its exit status and the error text), or it could not be run at all, or
      stopped for another reason. */
  datatype RunError = ExitError(code: int, message: string) | OtherError(message: string)

  /** What the process did: its writes in order, the error of `cmd.Run`,
      whether the timeout context's deadline had passed, the time taken, and
      the files it wrote in its working directory (path to new content). */
  datatype Outcome = Outcome(chunks: seq<Chunk>, err: Option<RunError>, deadlineExceeded: bool, elapsed: int,
                            writes: map<string, string>)

  /** Everything written to one stream, in order. */
  function StreamData(chunks: seq<Chunk>, s: Stream): string {
    if chunks == [] then []
    else (if chunks[0].stream == s then chunks[0].data else []) + StreamData(chunks[1..], s)
  }

  /** Everything written to either stream, in order. */
  function Written(chunks: seq<Chunk>): string {
    if chunks == [] then [] else chunks[0].data + Written(chunks[1..])
  }

  lemma WrittenSnoc(chunks: seq<Chunk>, c: Chunk)
    ensures Written(chunks + [c]) == Written(chunks) + c.data
  {
    if chunks != [] {
      assert (chunks + [c])[1..] == chunks[1..] + [c];
      WrittenSnoc(chunks[1..], c);
    } else {
      assert [c][1..] == [];
    }
  }

  /** The exit code and error of a run that produced `output`. */
  function Classify(timeout: int, output: string, run: Outcome): (r: Result)
    ensures r.output == output && r.duration == run.elapsed
    ensures r.error.None? <==> run.err.None?
    ensures run.err.None? ==> r.exitCode == 0
    ensures run.err.Some? && run.deadlineExceeded ==> r.exitCode == -1 && r.error == Some(TimedOut(timeout))
    ensures run.err.Some? && !run.deadlineExceeded ==>
      r.error == Some(run.err.value.message) &&
      r.exitCode == (if run.err.value.ExitError? then run.err.value.code else -1)
  {
    match run.err
    case None => Result(output, 0, run.elapsed, None)
    case Some(e) =>
      if run.deadlineExceeded then Result(output, -1, run.elapsed, Some(TimedOut(timeout)))
      else
        var code := match e case ExitError(c, _) => c case OtherError(_) => -1;
        Result(output, code, run.elapsed, Some(e.message))
  }

  /** Exec: the output is all of stdout followed by all of stderr. An empty
      argument list is refused before anything is started, so nothing the
      process would have done can reach the result. */
  function Exec(runner: Runner, args: seq<string>, run: Outcome): (r: Result)
    ensures args == [] ==> r == Result("", 0, 0, Some(EmptyCommand))
    ensures args != [] ==> r == Classify(runner.timeout, StreamData(run.chunks, Stdout) + StreamData(run.chunks, Stderr), run)
  {
    if args == [] then Result("", 0, 0, Some(EmptyCommand))
    else Classify(runner.timeout, StreamData(run.chunks, Stdout) + StreamData(run.chunks, Stderr), run)
  }

  lemma EmptyCommandSpawnsNothing(runner: Runner, run1: Outcome, run2: Outcome)
    ensures Exec(runner, [], run1) == Exec(runner, [], run2)
    ensures Exec(runner, [], run1).error == Some("empty command") && Exec(runner, [], run1).exitCode == 0
  {
  }

  // ----- outputWriter -----

  /** The handler calls and the carried partial line after feeding `p` to a
      writer whose partial line was `line` and whose calls so far were `calls`:
      each newline delivers the partial line (without the newline) to the
      handler, if there is one, and starts a new line. */
  function Feed(line: string, calls: seq<string>, p: string, hasHandler: bool): (string, seq<string>)
    decreases |p|
  {
    if p == [] then (line, calls)
    else
      var (l, c) := Feed(line, calls, p[..|p| - 1], hasHandler);
      if p[|p| - 1] == '\n' then ([], if hasHandler then c + [l] else c)
      else (l + [p[|p| - 1]], c)
  }

  /** Feeding `p` then `q` is feeding `p + q`: a partial line is carried
      across writes. */
  lemma {:induction false} FeedAppend(line: string, calls: seq<string>, p: string, q: string, h: bool)
    ensures Feed(line, calls, p + q, h) ==
      Feed(Feed(line, calls, p, h).0, Feed(line, calls, p, h).1, q, h)
    decreases |q|
  {
    if q == [] {
      assert p + q == p;
    } else {
      assert (p + q)[..|p + q| - 1] == p + q[..|q| - 1];
      FeedAppend(line, calls, p, q[..|q| - 1], h);
    }
  }

  /** The delivered lines, each with its newline put back. */
  function Terminated(lines: seq<string>): string {
    if lines == [] then [] else lines[0] + "\n" + Terminated(lines[1..])
  }

  lemma TerminatedSnoc(lines: seq<string>, l: string)
    ensures Terminated(lines + [l]) == Terminated(lines) + l + "\n"
  {
    if lines != [] {
      assert (lines + [l])[1..] == lines[1..] + [l];
      TerminatedSnoc(lines[1..], l);
    } else {
      assert [l][1..] == [];
    }
  }

  function CountChar(s: string, c: char): nat {
    if s == [] then 0 else (if s[|s| - 1] == c then 1 else 0) + CountChar(s[..|s| - 1], c)
  }

  /** Without a handler nothing is delivered, and the writer carries the
      same partial line as with one. */
  lemma {:induction false} FeedWithoutHandler(line: string, calls: seq<string>, p: string)
    ensures Feed(line, calls, p, false) == (Feed(line, calls, p, true).0, calls)
    decreases |p|
  {
    if p != [] {
      FeedWithoutHandler(line, calls, p[..|p| - 1]);
    }
  }

  /** With a handler, the new calls are the complete lines of `line + p`, one
      per newline and none holding one, and the carried line is the
      unterminated tail: nothing is lost and nothing is delivered early. */
  lemma {:induction false} FeedSplitsLines(line: string, calls: seq<string>, p: string)
    requires '\n' !in line
    ensures var (l, c) := Feed(line, calls, p, true);
      |c| >= |calls| && c[..|calls|] == calls &&
      Terminated(c[|calls|..]) + l == line + p &&
      |c| - |calls| == CountChar(p, '\n') &&
      '\n' !in l && forall i :: |calls| <= i < |c| ==> '\n' !in c[i]
    decreases |p|
  {
    if p != [] {
      var p0 := p[..|p| - 1];
      FeedSplitsLines(line, calls, p0);
      var (l, c) := Feed(line, calls, p0, true);
      assert line + p == (line + p0) + [p[|p| - 1]];
      if p[|p| - 1] == '\n' {
        assert (c + [l])[..|calls|] == calls;
        assert (c + [l])[|calls|..] == c[|calls|..] + [l];
        TerminatedSnoc(c[|calls|..], l);
      }
    }
  }

  class OutputWriter {
    /** The shared output buffer: every byte written. */
    var buffer: string
    /** The partial line since the last newline. */
    var line: string
    /** The handler's calls so far, in order. */
    var delivered: seq<string>
    const hasHandler: bool

    constructor (hasHandler: bool)
      ensures this.hasHandler == hasHandler && buffer == [] && line == [] && delivered == []
    {
      this.hasHandler := hasHandler;
      buffer, line, delivered := [], [], [];
    }

    /** Write(p) accepts all of p, appends it to the buffer and splits it
        into lines, byte by byte. */
    method Write(p: string) returns (n: int, err: Option<string>)
      modifies this`buffer, this`line, this`delivered
      ensures n == |p| && err == None
      ensures buffer == old(buffer) + p
      ensures (line, delivered) == Feed(old(line), old(delivered), p, hasHandler)
    {
      n := |p|;
      buffer := buffer + p;
      var i := 0;
      while i < |p|
        invariant 0 <= i <= |p|
        invariant buffer == old(buffer) + p
        invariant (line, delivered) == Feed(old(line), old(delivered), p[..i], hasHandler)
      {
        assert p[..i + 1][..i] == p[..i];
        if p[i] == '\n' {
          if hasHandler {
            delivered := delivered + [line];
          }
          line := [];
        } else {
          line := line + [p[i]];
        }
        i := i + 1;
      }
      assert p[..i] == p;
      err := None;
    }
  }

  /** ExecWithHandler: both streams go through one writer, in the order the
      process wrote them; the output is everything written and the handler
      has seen every complete line. */
  method ExecWithHandler(runner: Runner, args: seq<string>, run: Outcome, hasHandler: bool)
    returns (r: Result, lines: seq<string>)
    ensures args == [] ==> r == Result("", 0, 0, Some(EmptyCommand)) && lines == []
    ensures args != [] ==> r == Classify(runner.timeout, Written(run.chunks), run)
    ensures args != [] ==> lines == Feed([], [], Written(run.chunks), hasHandler).1
  {
    if args == [] {
      return Result("", 0, 0, Some(EmptyCommand)), [];
    }
    var w := new OutputWriter(hasHandler);
    var i := 0;
    while i < |run.chunks|
      invariant 0 <= i <= |run.chunks|
      invariant w.hasHandler == hasHandler
      invariant w.buffer == Written(run.chunks[..i])
      invariant (w.line, w.delivered) == Feed([], [], Written(run.chunks[..i]), hasHandler)
    {
      ghost var before := Written(run.chunks[..i]);
      var _, _ := w.Write(run.chunks[i].data);
      assert run.chunks[..i + 1] == run.chunks[..i] + [run.chunks[i]];
      WrittenSnoc(run.chunks[..i], run.chunks[i]);
      FeedAppend([], [], before, run.chunks[i].data, hasHandler);
      i := i + 1;
    }
    assert run.chunks[..i] == run.chunks;
    r := Classify(runner.timeout, w.buffer, run);
    lines := w.delivered;
  }

  // ----- StripANSI -----

  /** The end of the run of `[0-9;]` characters starting at `i`. */
  function ParamEnd(s: string, i: nat): (j: nat)
    requires i <= |s|
    ensures i <= j <= |s|
    ensures forall k :: i <= k < j ==> Text.IsDigit(s[k]) || s[k] == ';'
    ensures j < |s| ==> !(Text.IsDigit(s[j]) || s[j] == ';')
    decreases |s| - i
  {
    if i < |s| && (Text.IsDigit(s[i]) || s[i] == ';') then ParamEnd(s, i + 1) else i
  }

  /** The length of the `ESC [ [0-9;]* m` sequence at the start of `s`, or 0. */
  function SgrLength(s: string): (n: nat)
    ensures n == 0 || (3 <= n <= |s| && s[0] == Esc && s[1] == '[' && s[n - 1] == 'm')
  {
    if |s| >= 2 && s[0] == Esc && s[1] == '[' then
      var j := ParamEnd(s, 2);
      if j < |s| && s[j] == 'm' then j + 1 else 0
    else 0
  }

  /** StripANSI: scan left to right, dropping each escape sequence found and
      keeping every other character. */
  function StripANSI(s: string): string
    decreases |s|
  {
    if s == [] then []
    else
      var n := SgrLength(s);
      if n > 0 then StripANSI(s[n..]) else [s[0]] + StripANSI(s[1..])
  }

  /** A colour sequence with the given parameter characters. */
  function Sgr(params: string): string {
    [Esc, '['] + params + "m"
  }

  lemma {:induction false} NoEscapeUnchanged(s: string)
    requires Esc !in s
    ensures StripANSI(s) == s
    decreases |s|
  {
    if s != [] {
      assert SgrLength(s) == 0;
      NoEscapeUnchanged(s[1..]);
    }
  }

  lemma ParamEndAppend(x: string, z: string, i: nat)
    requires i <= |x|
    requires z == [] || z[0] == Esc
    ensures ParamEnd(x + z, i) == ParamEnd(x, i)
    decreases |x| - i
  {
    if i < |x| && (Text.IsDigit(x[i]) || x[i] == ';') {
      ParamEndAppend(x, z, i + 1);
    }
  }

  lemma SgrLengthAppend(x: string, z: string)
    requires x != []
    requires z == [] || z[0] == Esc
    ensures SgrLength(x + z) == SgrLength(x)
  {
    var s := x + z;
    if |x| >= 2 && x[0] == Esc && x[1] == '[' {
      ParamEndAppend(x, z, 2);
    }
  }

  /** A scan over `x + z` never runs across the border when `z` starts with
      an escape character: no sequence starting in `x` can contain one. */
  lemma {:induction false} StripAppend(x: string, z: string)
    requires z == [] || z[0] == Esc
    ensures StripANSI(x + z) == StripANSI(x) + StripANSI(z)
    decreases |x|
  {
    if x == [] {
      assert x + z == z;
    } else {
      var s := x + z;
      SgrLengthAppend(x, z);
      var n := SgrLength(x);
      if n > 0 {
        assert s[n..] == x[n..] + z;
        StripAppend(x[n..], z);
      } else {
        assert s[1..] == x[1..] + z;
        StripAppend(x[1..], z);
      }
    }
  }

  lemma SgrIsOneSequence(params: string, w: string)
    requires forall k :: 0 <= k < |params| ==> Text.IsDigit(params[k]) || params[k] == ';'
    ensures StripANSI(Sgr(params) + w) == StripANSI(w)
  {
    var s := Sgr(params) + w;
    var j := ParamEnd(s, 2);
    assert j == 2 + |params| by {
      ParamEndRun(s, 2, 2 + |params|);
    }
    assert s[SgrLength(s)..] == w;
  }

  lemma ParamEndRun(s: string, i: nat, e: nat)
    requires i <= e < |s|
    requires forall k :: i <= k < e ==> Text.IsDigit(s[k]) || s[k] == ';'
    requires s[e] == 'm'
    ensures ParamEnd(s, i) == e
    decreases e - i
  {
    if i < e {
      ParamEndRun(s, i + 1, e);
    }
  }

  /** Removing what was inserted: a colour sequence placed anywhere in text
      without escapes is removed and the text around it is kept. */
  lemma StripInserted(x: string, params: string, w: string)
    requires Esc !in x && Esc !in w
    requires forall k :: 0 <= k < |params| ==> Text.IsDigit(params[k]) || params[k] == ';'
    ensures StripANSI(x + Sgr(params) + w) == x + w
  {
    StripAppend(x, Sgr(params) + w);
    assert x + Sgr(params) + w == x + (Sgr(params) + w);
    SgrIsOneSequence(params, w);
    NoEscapeUnchanged(x);
    NoEscapeUnchanged(w);
  }

  /** A coloured text: one sequence, escape-free text, one closing sequence. */
  lemma StripColoured(open: string, text: string, close: string)
    requires forall k :: 0 <= k < |open| ==> Text.IsDigit(open[k]) || open[k] == ';'
    requires forall k :: 0 <= k < |close| ==> Text.IsDigit(close[k]) || close[k] == ';'
    requires Esc !in text
    ensures StripANSI(Sgr(open) + text + Sgr(close)) == text
  {
    StripAppend(Sgr(open) + text, Sgr(close));
    SgrIsOneSequence(open, text);
    NoEscapeUnchanged(text);
    SgrIsOneSequence(close, []);
    assert Sgr(close) + [] == Sgr(close);
  }

  /** The example of the runner's tests: bold red text loses both of its
      sequences, ESC [1;31m and ESC [0m. */
  lemma StripExample()
    ensures StripANSI(Sgr("1;31") + "red bold" + Sgr("0")) == "red bold"
  {
    StripColoured("1;31", "red bold", "0");
  }

  /** One pass is not idempotent: removing the inner sequence can join the
      pieces around it into a new one. */
  lemma NotIdempotent()
    ensures StripANSI([Esc] + "[" + Sgr("0") + "m") == [Esc] + "[m"
    ensures StripANSI([Esc] + "[m") == []
  {
    var s := [Esc] + "[" + Sgr("0") + "m";
    assert SgrLength(s) == 0 by {
      assert ParamEnd(s, 2) == 2;
    }
    var t := s[1..];
    assert SgrLength(t) == 0;
    assert s[1..][1..] == Sgr("0") + "m";
    SgrIsOneSequence("0", "m");
    NoEscapeUnchanged("m");
    var u := [Esc] + "[m";
    assert ParamEnd(u, 2) == 2;
    assert u[3..] == [];
  }
}
