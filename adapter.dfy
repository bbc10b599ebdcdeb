/** `StreamToLogger`: a writable text stream that turns what is written to it
    into log records at one fixed level, line by line. */
module Adapter {
  import opened Strings
  import opened Levels
  import opened Logging

  /** One record per line, at `level`, each line's trailing whitespace removed. */
  function EmitLines(level: int, lines: seq<string>): seq<Record> {
    if lines == [] then [] else [Record(level, RStrip(lines[0]))] + EmitLines(level, lines[1..])
  }

  /** The records one `write(buf)` hands to the logger of an adapter at `level`. */
  function Emitted(level: int, buf: string): seq<Record> {
    if buf == "^" then [] else EmitLines(level, SplitLines(RStrip(buf)))
  }

  lemma {:induction false} EmitLinesAt(level: int, lines: seq<string>)
    ensures |EmitLines(level, lines)| == |lines|
    ensures forall k :: 0 <= k < |lines| ==> EmitLines(level, lines)[k] == Record(level, RStrip(lines[k]))
  {
    if lines != [] {
      EmitLinesAt(level, lines[1..]);
    }
  }

  lemma EmitLinesSnoc(level: int, lines: seq<string>, i: nat)
    requires i < |lines|
    ensures EmitLines(level, lines[..i + 1])
      == EmitLines(level, lines[..i]) + [Record(level, RStrip(lines[i]))]
  {
    EmitLinesAt(level, lines[..i + 1]);
    EmitLinesAt(level, lines[..i]);
    var a := EmitLines(level, lines[..i + 1]);
    var b := EmitLines(level, lines[..i]) + [Record(level, RStrip(lines[i]))];
    assert |a| == |b|;
    forall k | 0 <= k < |a| ensures a[k] == b[k] {
      assert lines[..i + 1][k] == lines[k];
    }
  }

  /** One more line logged: the records and the deliveries each grow by one step. */
  lemma LogStep(level: int, lines: seq<string>, i: nat, sinks: seq<Sink>, sent: seq<Record>,
                d0: seq<Delivery>, d1: seq<Delivery>, d2: seq<Delivery>)
    requires i < |lines| && sent == EmitLines(level, lines[..i])
    requires d1 == d0 + DeliverEach(sinks, sent)
    requires d2 == d1 + Deliver(sinks, Record(level, RStrip(lines[i])))
    ensures var r := Record(level, RStrip(lines[i]));
      && sent + [r] == EmitLines(level, lines[..i + 1])
      && d2 == d0 + DeliverEach(sinks, sent + [r])
  {
    var r := Record(level, RStrip(lines[i]));
    EmitLinesSnoc(level, lines, i);
    assert (sent + [r])[..|sent|] == sent;
  }

  class StreamToLogger {
    const logger: RootLogger
    const level: int
    /** Set once and never written again: nothing is buffered across writes. */
    const linebuf: string

    constructor (logger: RootLogger, level: int := INFO)
      ensures this.logger == logger && this.level == level && linebuf == ""
    {
      this.logger := logger;
      this.level := level;
      linebuf := "";
    }

    /** Logs every line of `buf.rstrip().splitlines()`, stripped, unless the
        whole untrimmed buffer is the single character '^'. */
    method Write(buf: string)
      modifies logger
      ensures logger.submitted == old(logger.submitted) + Emitted(level, buf)
      ensures logger.deliveries
        == old(logger.deliveries) + DeliverEach(Route(logger.level, logger.handlers, level), Emitted(level, buf))
      ensures logger.level == old(logger.level) && logger.handlers == old(logger.handlers)
    {
      LogLines(SplitLines(RStrip(buf)), buf != "^");
    }

    /** The loop of `write`. `emit` is its per-line test `not buf == "^"`,
        which is the same on every iteration. */
    method LogLines(lines: seq<string>, emit: bool)
      modifies logger
      ensures logger.submitted == old(logger.submitted) + (if emit then EmitLines(level, lines) else [])
      ensures logger.deliveries == old(logger.deliveries)
        + DeliverEach(Route(logger.level, logger.handlers, level), if emit then EmitLines(level, lines) else [])
      ensures logger.level == old(logger.level) && logger.handlers == old(logger.handlers)
    {
      ghost var sinks := Route(logger.level, logger.handlers, level);
      ghost var sent: seq<Record> := [];
      for i := 0 to |lines|
        invariant logger.level == old(logger.level) && logger.handlers == old(logger.handlers)
        invariant sent == if emit then EmitLines(level, lines[..i]) else []
        invariant logger.submitted == old(logger.submitted) + sent
        invariant logger.deliveries == old(logger.deliveries) + DeliverEach(sinks, sent)
      {
        if emit {
          var message := RStrip(lines[i]);
          ghost var before := logger.deliveries;
          logger.Log(level, message);
          LogStep(level, lines, i, sinks, sent, old(logger.deliveries), before, logger.deliveries);
          sent := sent + [Record(level, message)];
        }
      }
      assert lines[..|lines|] == lines;
    }

    /** Does nothing: there is never anything buffered to push out. */
    method Flush()
      ensures unchanged(logger)
    {
    }
  }

  /** One record per line of `buf.rstrip().splitlines()`, in order, all at the
      adapter's level; each message is its line cut back to its last
      non-whitespace character, so it keeps its leading whitespace, holds no
      line boundary and does not end in whitespace. */
  lemma EmittedRecords(level: int, buf: string)
    requires buf != "^"
    ensures var lines := SplitLines(RStrip(buf));
      && |Emitted(level, buf)| == |lines|
      && forall k :: 0 <= k < |lines| ==>
        var m := Emitted(level, buf)[k].message;
        && Emitted(level, buf)[k].level == level
        && m == RStrip(lines[k])
        && m <= lines[k]
        && AllSpace(lines[k][|m|..])
        && NoTrailingSpace(m)
        && NoLineBreak(m)
  {
    EmitLinesAt(level, SplitLines(RStrip(buf)));
  }

  /** A write emits nothing exactly when the buffer is the sentinel "^" or is
      empty or all whitespace. */
  lemma EmittedNothingIff(level: int, buf: string)
    ensures Emitted(level, buf) == [] <==> buf == "^" || AllSpace(buf)
  {
    RStripEmptyIff(buf);
    EmitLinesAt(level, SplitLines(RStrip(buf)));
  }

  /** Text made of lines joined by "\n", followed by any whitespace, is logged
      line for line: blank interior lines become empty messages. The sentinel
      is recognised only when the whole buffer is exactly "^". */
  lemma EmittedOfLines(level: int, lines: seq<string>, tail: string)
    requires lines != [] && lines[|lines| - 1] != [] && NoTrailingSpace(lines[|lines| - 1])
    requires forall j :: 0 <= j < |lines| ==> NoLineBreak(lines[j])
    requires AllSpace(tail)
    ensures Emitted(level, JoinLines(lines) + tail)
      == if JoinLines(lines) + tail == "^" then [] else EmitLines(level, lines)
  {
    JoinLinesNoTrailingSpace(lines);
    RStripAppendSpace(JoinLines(lines), tail);
    SplitJoin(lines);
  }

  /** A non-blank line followed only by whitespace (at least one character of
      it) is logged as that one line, stripped. */
  lemma EmittedLastLine(level: int, l: string, tail: string)
    requires NoLineBreak(l) && !AllSpace(l) && AllSpace(tail) && tail != []
    ensures Emitted(level, l + tail) == [Record(level, RStrip(l))]
  {
    var r := RStrip(l);
    RStripSpaceTail(l, tail);
    RStripEmptyIff(l);
    assert NoLineBreak(r) by {
      assert forall i :: 0 <= i < |r| ==> r[i] == l[i];
    }
    SplitLinesOne(r);
    RStripIdempotent(l);
    assert |l + tail| >= 2;
    assert [r][1..] == [];
    assert EmitLines(level, [r]) == [Record(level, RStrip(r))] + EmitLines(level, [r][1..]);
  }

  /** EmittedAtBreak when something other than whitespace follows the boundary. */
  lemma EmittedBeforeLine(level: int, l: string, b: string, rest: string)
    requires NoLineBreak(l) && IsBoundary(b, rest) && !AllSpace(rest)
    ensures Emitted(level, l + b + rest)
      == [Record(level, RStrip(l))] + EmitLines(level, SplitLines(RStrip(rest)))
  {
    var r := RStrip(rest);
    RStripEmptyIff(rest);
    RStripPrepend(l + b, rest);
    assert |l + b + rest| >= 2;
    assert IsBoundary(b, r) by {
      assert r <= rest && r != [];
    }
    SplitLinesAtBreak(l, b, r);
  }

  /** A buffer is logged from its first whole line boundary on: the line
      before it becomes one record and the rest is split in turn, whichever
      of splitlines' boundaries it is (\r\n counting as one). Only a buffer
      whose first line and remainder are both blank is left out: it logs
      nothing (EmittedNothingIff). */
  lemma EmittedAtBreak(level: int, l: string, b: string, rest: string)
    requires NoLineBreak(l) && IsBoundary(b, rest) && !(AllSpace(l) && AllSpace(rest))
    ensures Emitted(level, l + b + rest)
      == [Record(level, RStrip(l))] + EmitLines(level, SplitLines(RStrip(rest)))
  {
    if AllSpace(rest) {
      RStripEmptyIff(rest);
      LineBreakIsSpace(b[0]);
      assert AllSpace(b + rest);
      assert l + b + rest == l + (b + rest);
      EmittedLastLine(level, l, b + rest);
    } else {
      EmittedBeforeLine(level, l, b, rest);
    }
  }

  /** Windows line ends: "\r\n" is one boundary, not two. */
  lemma EmittedCrlf(level: int)
    ensures Emitted(level, "a\r\nb\r\n") == [Record(level, "a"), Record(level, "b")]
  {
    assert "b" + "\r\n" == "b\r\n" && AllSpace("\r\n");
    RStripAppendSpace("b", "\r\n");
    SplitLinesOne("b");
    assert "a" + "\r\n" + "b\r\n" == "a\r\nb\r\n";
    EmittedBeforeLine(level, "a", "\r\n", "b\r\n");
  }

  /** A lone carriage return ends a line. */
  lemma EmittedLoneCr(level: int)
    ensures Emitted(level, "a\rb") == [Record(level, "a"), Record(level, "b")]
  {
    assert "b"[0] == 'b' && !IsSpace('b');
    SplitLinesOne("b");
    assert "a" + "\r" + "b" == "a\rb";
    EmittedBeforeLine(level, "a", "\r", "b");
  }

  /** The Unicode line separator ends a line. */
  lemma EmittedLineSeparator(level: int)
    ensures Emitted(level, "a\U{2028}b") == [Record(level, "a"), Record(level, "b")]
  {
    assert "b"[0] == 'b' && !IsSpace('b');
    SplitLinesOne("b");
    assert "a" + "\U{2028}" + "b" == "a\U{2028}b";
    EmittedBeforeLine(level, "a", "\U{2028}", "b");
  }

  /** The sentinel is tested on the untrimmed buffer. */
  lemma SentinelIsExact(level: int)
    ensures Emitted(level, "^") == []
    ensures Emitted(level, "^\n") == [Record(level, "^")]
    ensures Emitted(level, " ^") == [Record(level, " ^")]
  {
    assert JoinLines(["^"]) + "\n" == "^\n" != "^";
    EmittedOfLines(level, ["^"], "\n");
    assert JoinLines([" ^"]) + "" == " ^" != "^";
    EmittedOfLines(level, [" ^"], "");
  }

  /** A traceback-like example: an interior blank line is kept as an empty
      message, indentation is kept, trailing blanks are dropped. */
  lemma EmittedBlankLine(level: int)
    ensures Emitted(level, "a\n\n  b \n")
      == [Record(level, "a"), Record(level, ""), Record(level, "  b")]
  {
    var lines := ["a", "", "  b"];
    assert JoinLines(lines) + " \n" == "a\n\n  b \n";
    EmittedOfLines(level, lines, " \n");
    EmitLinesAt(level, lines);
  }
}
