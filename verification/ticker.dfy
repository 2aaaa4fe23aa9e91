/**
 * The promotional top bar: two looping tickers, each showing enough copies
 * of its message list to cover the viewport plus one extra sequence.
 */
module Ticker {
  import Decimal

  datatype Message = Message(id: string, icon: string, text: string)

  const Messages: seq<Message> := [
    Message("envio-gratis", "🚚", "Envío gratis a todo el Perú"),
    Message("pago-contraentrega", "💳", "Pago contraentrega "),
    Message("entrega-rapida", "⚡", "Entrega rápida en 12-36 horas"),
    Message("envio-seguro", "📦", "Envío seguro y protegido")
  ]

  const BlackFridayMessages: seq<Message> := [
    Message("bf-1", "🔥", "BLACK FRIDAY: 60% OFF"),
    Message("bf-2", "⚡", "Solo del 20 al 31 de Noviembre"),
    Message("bf-3", "🎁", "Aprovecha el mejor descuento del año"),
    Message("bf-4", "🔥", "60% OFF + Envío GRATIS")
  ]

  /** `Array.from({ length: n }).flatMap(() => msgs)`: `n` copies of the list, one after another. */
  function Repeat(msgs: seq<Message>, n: nat): (r: seq<Message>)
    ensures |r| == n * |msgs|
    ensures forall i :: 0 <= i < |r| ==> r[i] == msgs[i % |msgs|]
  {
    if n == 0 then []
    else
      var prev := Repeat(msgs, n - 1);
      var r := prev + msgs;
      assert forall i :: |prev| <= i < |r| ==> i % |msgs| == i - |prev| by {
        forall i | |prev| <= i < |r|
          ensures i % |msgs| == i - |prev|
        {
          DivModUnique(i, |msgs|, n - 1, i - |prev|);
        }
      }
      r
  }

  lemma MulAtLeast(d: int, t: int)
    requires d > 0 && t >= 1
    ensures d * t >= d
  {
  }

  /** Euclidean division has one remainder: `d * q + r` with `0 <= r < d` leaves `r`. */
  lemma DivModUnique(n: int, d: int, q: int, r: int)
    requires d > 0 && 0 <= r < d && n == d * q + r
    ensures n % d == r
  {
    var q0, r0 := n / d, n % d;
    assert d * (q - q0) == r0 - r;
    if q > q0 {
      MulAtLeast(d, q - q0);
    } else if q < q0 {
      MulAtLeast(d, q0 - q);
    }
  }

  /** The copy count never falls below two, whatever the measured ratio asks for. */
  function Needed(raw: int): (n: nat)
    ensures n >= 2
    ensures raw >= 2 ==> n == raw
    ensures raw < 2 ==> n == 2
  {
    if raw >= 2 then raw else 2
  }

  /**
   * One ticker's state. `width` is the animated distance of one sequence,
   * zero until the first measure that finds the copy count right.
   */
  datatype Track = Track(copies: nat, items: seq<Message>, width: real)

  function InitialTrack(msgs: seq<Message>): Track {
    Track(2, Repeat(msgs, 2), 0.0)
  }

  /**
   * One measure: without the element nothing happens; otherwise when the
   * needed copy count differs, the count and the list change together and
   * the width is kept, else only the width is set. `raw` is the ceiling of
   * `(viewport + single) / single` and `single` the width of one sequence.
   */
  function Measure(t: Track, msgs: seq<Message>, mounted: bool, raw: int, single: real): (r: Track)
    ensures !mounted ==> r == t
    ensures mounted && Needed(raw) != t.copies ==>
      r == Track(Needed(raw), Repeat(msgs, Needed(raw)), t.width)
    ensures mounted && Needed(raw) == t.copies ==> r == t.(width := single)
  {
    if !mounted then t
    else
      var needed := Needed(raw);
      if needed != t.copies then Track(needed, Repeat(msgs, needed), t.width)
      else t.(width := single)
  }

  /** The list is exactly `copies` copies of the messages, and there are at least two. */
  predicate Consistent(t: Track, msgs: seq<Message>) {
    t.copies >= 2 && t.items == Repeat(msgs, t.copies)
  }

  /** A measure either changes the copies and list or the width, never both. */
  lemma MeasureChangesOneThing(t: Track, msgs: seq<Message>, mounted: bool, raw: int, single: real)
    ensures var r := Measure(t, msgs, mounted, raw, single);
      (r.copies == t.copies && r.items == t.items) || r.width == t.width
  {
  }

  datatype Measurement = Measurement(mounted: bool, raw: int, single: real)

  function MeasureAll(t: Track, msgs: seq<Message>, ms: seq<Measurement>): Track
    decreases |ms|
  {
    if |ms| == 0 then t
    else MeasureAll(Measure(t, msgs, ms[0].mounted, ms[0].raw, ms[0].single), msgs, ms[1..])
  }

  /** From the initial two copies, every sequence of measures keeps the list in step with the copy count. */
  lemma {:induction false} MeasuresKeepConsistent(t: Track, msgs: seq<Message>, ms: seq<Measurement>)
    requires Consistent(t, msgs)
    ensures Consistent(MeasureAll(t, msgs, ms), msgs)
    decreases |ms|
  {
    if |ms| > 0 {
      MeasuresKeepConsistent(Measure(t, msgs, ms[0].mounted, ms[0].raw, ms[0].single), msgs, ms[1..]);
    }
  }

  lemma InitialConsistent(msgs: seq<Message>, ms: seq<Measurement>)
    ensures Consistent(MeasureAll(InitialTrack(msgs), msgs, ms), msgs)
    ensures |MeasureAll(InitialTrack(msgs), msgs, ms).items| >= 2 * |msgs|
  {
    MeasuresKeepConsistent(InitialTrack(msgs), msgs, ms);
  }

  /** The four-message lists give lists of `4 * copies` items, item `i` being message `i mod 4`. */
  lemma TickerLists(n: nat)
    ensures |Repeat(Messages, n)| == 4 * n && |Repeat(BlackFridayMessages, n)| == 4 * n
    ensures forall i :: 0 <= i < 4 * n ==> Repeat(Messages, n)[i] == Messages[i % 4]
    ensures forall i :: 0 <= i < 4 * n ==> Repeat(BlackFridayMessages, n)[i] == BlackFridayMessages[i % 4]
  {
  }

  /** The render key of item `i`: `${id}-${i}`. */
  function Key(m: Message, i: nat): string {
    m.id + "-" + Decimal.Text(i)
  }

  /**
   * The index can be read back from the key: the text after the last dash
   * is the index, since the printed index never holds a dash.
   */
  lemma KeyDeterminesIndex(a: Message, i: nat, b: Message, j: nat)
    requires Key(a, i) == Key(b, j)
    ensures i == j
  {
    var ti, tj := Decimal.Text(i), Decimal.Text(j);
    var k := Key(a, i);
    KeyShape(a, i);
    KeyShape(b, j);
    assert |ti| == |tj|;
    assert ti == k[|k| - |ti|..];
    assert tj == k[|k| - |tj|..];
    Decimal.TextInjective(i, j);
  }

  /** A key is a dash followed by the index's digits at its end. */
  lemma KeyShape(m: Message, i: nat)
    ensures var k, t := Key(m, i), Decimal.Text(i);
      |k| == |m.id| + 1 + |t| && k[|k| - |t| - 1] == '-'
      && k[|k| - |t|..] == t
      && forall q :: |k| - |t| <= q < |k| ==> Decimal.IsDigit(k[q])
  {
  }

  /** Whatever the messages, no two rendered items share a key. */
  lemma KeysDistinct(items: seq<Message>)
    ensures forall i, j :: 0 <= i < j < |items| ==> Key(items[i], i) != Key(items[j], j)
  {
    forall i, j | 0 <= i < j < |items|
      ensures Key(items[i], i) != Key(items[j], j)
    {
      if Key(items[i], i) == Key(items[j], j) {
        KeyDeterminesIndex(items[i], i, items[j], j);
      }
    }
  }
}
