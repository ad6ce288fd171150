/**
 * Serialization of a trace span context into the simple text form
 * `SpanID;TraceID;TraceOptions` (pkg/grpc/api_test.go, SerializeSpanContext),
 * its byte form (ExtractSpanContext), and a parser that inverts it.
 *
 * The trace identifiers are taken as already rendered: a span id is 8 bytes
 * and a trace id 16 bytes, each shown as lowercase hexadecimal, so the text
 * forms are 16 and 32 hex characters.
 */
module SpanContext {
  import opened Wrappers
  import Decimal

  predicate IsLowerHexDigit(c: char) {
    '0' <= c <= '9' || 'a' <= c <= 'f'
  }

  predicate IsLowerHex(s: string) {
    forall i :: 0 <= i < |s| ==> IsLowerHexDigit(s[i])
  }

  type SpanIdText = s: string | |s| == 16 && IsLowerHex(s)
    witness "0000000000000000"

  type TraceIdText = s: string | |s| == 32 && IsLowerHex(s)
    witness "00000000000000000000000000000000"

  /** Trace options are a 32-bit unsigned integer. */
  type TraceOptions = n: nat | n < 0x1_0000_0000

  datatype SpanContext = SpanContext(spanId: SpanIdText, traceId: TraceIdText, traceOptions: TraceOptions)

  const Separator: char := ';'

  /** `strings.Split(s, ";")`: the maximal separator-free pieces, in order. */
  function Split(s: string): (fields: seq<string>)
    ensures |fields| >= 1
    ensures forall k :: 0 <= k < |fields| ==> Separator !in fields[k]
    decreases |s|
  {
    if s == [] then [""]
    else
      var rest := Split(s[1..]);
      if s[0] == Separator then [""] + rest
      else [[s[0]] + rest[0]] + rest[1..]
  }

  /** `strings.Join(fields, ";")`. */
  function Join(fields: seq<string>): string
    requires |fields| >= 1
    decreases |fields|
  {
    if |fields| == 1 then fields[0] else fields[0] + [Separator] + Join(fields[1..])
  }

  lemma {:induction false} SplitNoSeparator(a: string)
    requires Separator !in a
    ensures Split(a) == [a]
    decreases |a|
  {
    if a != [] {
      assert Separator !in a[1..] by {
        forall k | 0 <= k < |a[1..]| ensures a[1..][k] != Separator {
          assert a[1..][k] == a[k + 1];
        }
      }
      SplitNoSeparator(a[1..]);
      assert [a[0]] + a[1..] == a;
    }
  }

  lemma {:induction false} SplitAfterField(a: string, b: string)
    requires Separator !in a
    ensures Split(a + [Separator] + b) == [a] + Split(b)
    decreases |a|
  {
    var s := a + [Separator] + b;
    if a == [] {
      assert s[1..] == b;
    } else {
      assert s[1..] == a[1..] + [Separator] + b;
      assert Separator !in a[1..] by {
        forall k | 0 <= k < |a[1..]| ensures a[1..][k] != Separator {
          assert a[1..][k] == a[k + 1];
        }
      }
      SplitAfterField(a[1..], b);
      assert [a[0]] + a[1..] == a;
    }
  }

  /** Joining the pieces of a split gives back the string. */
  lemma {:induction false} JoinSplit(s: string)
    ensures Join(Split(s)) == s
    decreases |s|
  {
    if s != [] {
      JoinSplit(s[1..]);
      var rest := Split(s[1..]);
      if s[0] != Separator && |rest| > 1 {
        assert Join(rest) == rest[0] + [Separator] + Join(rest[1..]);
        assert ([s[0]] + rest[0]) + [Separator] + Join(rest[1..]) == [s[0]] + Join(rest);
      }
      assert [s[0]] + s[1..] == s;
    }
  }

  lemma HexHasNoSeparator(s: string)
    requires IsLowerHex(s)
    ensures Separator !in s
  {
  }

  lemma DigitsHaveNoSeparator(s: string)
    requires Decimal.AllDigits(s)
    ensures Separator !in s
  {
  }

  /**
   * `fmt.Sprintf("%s;%s;%d", SpanID, TraceID, TraceOptions)`: never empty, and
   * its `;`-separated fields are exactly the span id, the trace id and the
   * decimal trace options.
   */
  function SerializeSpanContext(ctx: SpanContext): (s: string)
    ensures |s| > 0
    ensures Split(s) == [ctx.spanId, ctx.traceId, Decimal.FromNat(ctx.traceOptions)]
  {
    var opts := Decimal.FromNat(ctx.traceOptions);
    HexHasNoSeparator(ctx.spanId);
    HexHasNoSeparator(ctx.traceId);
    DigitsHaveNoSeparator(opts);
    SplitNoSeparator(opts);
    SplitAfterField(ctx.traceId, opts);
    assert ctx.spanId + [Separator] + ctx.traceId + [Separator] + opts
        == ctx.spanId + [Separator] + (ctx.traceId + [Separator] + opts);
    SplitAfterField(ctx.spanId, ctx.traceId + [Separator] + opts);
    ctx.spanId + [Separator] + ctx.traceId + [Separator] + opts
  }

  /** Reads the text form back; anything not of that exact shape is rejected. */
  function ParseSpanContext(s: string): Option<SpanContext> {
    var fields := Split(s);
    if |fields| == 3 && |fields[0]| == 16 && IsLowerHex(fields[0])
       && |fields[1]| == 32 && IsLowerHex(fields[1]) then
      match Decimal.ParseNat(fields[2])
      case Some(n) =>
        if n < 0x1_0000_0000 then Some(SpanContext(fields[0], fields[1], n)) else None
      case None => None
    else None
  }

  /** Serialization loses nothing: the text form parses back to the span context. */
  lemma ParseSerialize(ctx: SpanContext)
    ensures ParseSpanContext(SerializeSpanContext(ctx)) == Some(ctx)
  {
    Decimal.ParseFromNat(ctx.traceOptions);
  }

  /** Every text the parser accepts is the serialization of what it reads. */
  lemma SerializeParse(s: string, ctx: SpanContext)
    requires ParseSpanContext(s) == Some(ctx)
    ensures SerializeSpanContext(ctx) == s
  {
    var fields := Split(s);
    Decimal.ParseNatSound(fields[2], ctx.traceOptions);
    JoinSplit(s);
    assert fields[1..][1..] == [fields[2]];
    assert Join(fields[1..]) == fields[1] + [Separator] + fields[2];
  }

  /** Distinct span contexts serialize to distinct texts. */
  lemma SerializeInjective(a: SpanContext, b: SpanContext)
    requires SerializeSpanContext(a) == SerializeSpanContext(b)
    ensures a == b
  {
    ParseSerialize(a);
    ParseSerialize(b);
  }

  predicate IsAscii(s: string) {
    forall i :: 0 <= i < |s| ==> s[i] as int < 128
  }

  /** `[]byte(s)` for an ASCII string: one byte per character, its code. */
  function AsciiBytes(s: string): (b: seq<bv8>)
    requires IsAscii(s)
    ensures |b| == |s|
    ensures forall i :: 0 <= i < |b| ==> b[i] as int == s[i] as int
    decreases |s|
  {
    if s == [] then [] else [s[0] as int as bv8] + AsciiBytes(s[1..])
  }

  /**
   * `[]byte(SerializeSpanContext(span))`: the text is ASCII, so its UTF-8 bytes
   * are its character codes; never empty.
   */
  function ExtractSpanContext(ctx: SpanContext): (b: seq<bv8>)
    ensures |b| == |SerializeSpanContext(ctx)| > 0
    ensures forall i :: 0 <= i < |b| ==> b[i] as int == SerializeSpanContext(ctx)[i] as int
  {
    AsciiText(ctx);
    AsciiBytes(SerializeSpanContext(ctx))
  }

  lemma AsciiText(ctx: SpanContext)
    ensures IsAscii(SerializeSpanContext(ctx))
  {
    var opts := Decimal.FromNat(ctx.traceOptions);
    var s := SerializeSpanContext(ctx);
    forall i | 0 <= i < |s| ensures s[i] as int < 128 {
      if i < 16 {
        assert s[i] == ctx.spanId[i] && IsLowerHexDigit(ctx.spanId[i]);
      } else if i == 16 {
        assert s[i] == Separator;
      } else if i < 49 {
        assert s[i] == ctx.traceId[i - 17] && IsLowerHexDigit(ctx.traceId[i - 17]);
      } else if i == 49 {
        assert s[i] == Separator;
      } else {
        assert s[i] == opts[i - 50] && Decimal.IsDigit(opts[i - 50]);
      }
    }
  }
}
