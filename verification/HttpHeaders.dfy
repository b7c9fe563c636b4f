/** The header callbacks: the parser hands over fields and values in fragments, as places in the
    buffer. */
module HttpHeaders {
  import opened Bytes
  import opened Wrappers

  datatype View = View(start: nat, len: nat)

  datatype Mode = InField | InValue

  // The fields of pc, and the buffer that the views point into.
  datatype Callbacks = Callbacks(buf: seq<byte>, mode: Mode, fieldStart: Option<nat>, fieldLen: nat,
                                 valueStart: nat, valueLen: nat, headers: seq<(View, View)>)

  datatype Event = Field(at: nat, len: nat) | Value(at: nat, len: nat) | HeadersComplete

  function ToLower(c: byte): byte {
    if 65 <= c <= 90 then c + 32 else c
  }

  const UPPER_CASE := "ABCDEFGHIJKLMNOPQRSTUVWXYZ"
  const LOWER_CASE := "abcdefghijklmnopqrstuvwxyz"

  /** A letter of the upper case becomes the same letter of the lower case, and no other byte changes. */
  lemma LettersToLower(c: byte, i: nat)
    ensures i < 26 ==> ToLower(UPPER_CASE[i] as int) as char == LOWER_CASE[i]
    ensures (forall k | 0 <= k < 26 :: UPPER_CASE[k] as int != c) ==> ToLower(c) == c
  {
    if 65 <= c <= 90 {
      assert UPPER_CASE[c - 65] as int == c;
    }
  }

  function Lower(b: seq<byte>): (r: seq<byte>)
    ensures |r| == |b|
  {
    seq(|b|, i requires 0 <= i < |b| => ToLower(b[i]))
  }

  function Init(buf: seq<byte>): Callbacks {
    Callbacks(buf, InField, None, 0, 0, 0, [])
  }

  predicate Fits(buf: seq<byte>, v: View) {
    v.start + v.len <= |buf|
  }

  function LowerIn(buf: seq<byte>, v: View): (r: seq<byte>)
    ensures |r| == |buf|
  {
    seq(|buf|, k requires 0 <= k < |buf| => if v.start <= k < v.start + v.len then ToLower(buf[k]) else buf[k])
  }

  // last_field_start, None for null.
  function Place(start: Option<nat>): nat {
    if start.Some? then start.value else 0
  }

  // The pair is complete: the field is turned to lower case in place, and both are recorded.
  function Recorded(c: Callbacks): Callbacks {
    var field := View(Place(c.fieldStart), c.fieldLen);
    c.(buf := LowerIn(c.buf, field), headers := c.headers + [(field, View(c.valueStart, c.valueLen))])
  }

  function Step(c: Callbacks, e: Event): Callbacks {
    match e
    case Field(at, len) =>
      if c.mode == InValue then
        Recorded(c).(fieldStart := Some(at), fieldLen := len, mode := InField)
      else
        c.(fieldStart := if c.fieldStart.None? then Some(at) else c.fieldStart, fieldLen := c.fieldLen + len)
    case Value(at, len) =>
      if c.mode == InField then
        c.(valueStart := at, valueLen := len, mode := InValue)
      else
        c.(valueLen := c.valueLen + len)
    case HeadersComplete =>
      if c.mode == InValue then Recorded(c) else c
  }

  class HeaderCallbacks {
    const buf: array<byte>
    var mode: Mode
    var fieldStart: Option<nat>
    var fieldLen: nat
    var valueStart: nat
    var valueLen: nat
    var headers: seq<(View, View)>

    constructor (buf: array<byte>)
      ensures this.buf == buf && Now() == Init(buf[..])
    {
      this.buf := buf;
      mode, fieldStart, fieldLen, valueStart, valueLen, headers := InField, None, 0, 0, 0, [];
    }

    function Now(): Callbacks
      reads this, buf
    {
      Callbacks(buf[..], mode, fieldStart, fieldLen, valueStart, valueLen, headers)
    }

    // std::transform over the field.
    method LowerField()
      requires Place(fieldStart) + fieldLen <= buf.Length
      modifies buf
      ensures buf[..] == LowerIn(old(buf[..]), View(Place(fieldStart), fieldLen))
    {
      var start := Place(fieldStart);
      for i := 0 to fieldLen
        invariant forall k | 0 <= k < buf.Length ::
                    buf[k] == if start <= k < start + i then ToLower(old(buf[k])) else old(buf[k])
      {
        buf[start + i] := ToLower(buf[start + i]);
      }
    }

    method OnHeaderField(at: nat, len: nat)
      requires mode == InValue ==> Place(fieldStart) + fieldLen <= buf.Length
      modifies this, buf
      ensures Now() == Step(old(Now()), Field(at, len))
    {
      if mode == InValue {
        LowerField();
        headers := headers + [(View(Place(fieldStart), fieldLen), View(valueStart, valueLen))];
        fieldStart := Some(at);
        fieldLen := 0;
        mode := InField;
      } else if fieldStart.None? {
        fieldStart := Some(at);
      }
      fieldLen := fieldLen + len;
    }

    method OnHeaderValue(at: nat, len: nat)
      modifies this
      ensures Now() == Step(old(Now()), Value(at, len))
    {
      if mode == InField {
        valueStart := at;
        valueLen := 0;
        mode := InValue;
      }
      valueLen := valueLen + len;
    }

    method OnHeadersComplete()
      requires mode == InValue ==> Place(fieldStart) + fieldLen <= buf.Length
      modifies this, buf
      ensures Now() == Step(old(Now()), HeadersComplete)
    {
      if mode == InValue {
        LowerField();
        headers := headers + [(View(Place(fieldStart), fieldLen), View(valueStart, valueLen))];
      }
    }
  }

  // --- fragments ---

  // A header as it lies in the buffer.
  datatype Header = Header(field: View, value: View)

  // Contiguous fragments, one at least, that make up the view.
  ghost predicate Pieces(frags: seq<View>, v: View)
    decreases |frags|
  {
    && frags != [] && frags[0].start == v.start
    && if |frags| == 1 then frags[0].len == v.len
       else frags[0].len <= v.len && Pieces(frags[1..], View(v.start + frags[0].len, v.len - frags[0].len))
  }

  function FieldEvents(frags: seq<View>): seq<Event> {
    seq(|frags|, i requires 0 <= i < |frags| => Field(frags[i].start, frags[i].len))
  }

  function ValueEvents(frags: seq<View>): seq<Event> {
    seq(|frags|, i requires 0 <= i < |frags| => Value(frags[i].start, frags[i].len))
  }

  // How the parser cut one header.
  datatype Cut = Cut(field: seq<View>, value: seq<View>)

  ghost predicate Cuts(cut: Cut, h: Header) {
    Pieces(cut.field, h.field) && Pieces(cut.value, h.value)
  }

  function Events(cuts: seq<Cut>): seq<Event> {
    if cuts == [] then []
    else Events(cuts[..|cuts| - 1]) + FieldEvents(cuts[|cuts| - 1].field) + ValueEvents(cuts[|cuts| - 1].value)
  }

  function Steps(c: Callbacks, events: seq<Event>): Callbacks
    decreases |events|
  {
    if events == [] then c else Steps(Step(c, events[0]), events[1..])
  }

  lemma {:induction false} StepsTogether(c: Callbacks, a: seq<Event>, b: seq<Event>)
    ensures Steps(c, a + b) == Steps(Steps(c, a), b)
    decreases |a|
  {
    if a == [] {
      assert a + b == b;
    } else {
      assert (a + b)[1..] == a[1..] + b;
      StepsTogether(Step(c, a[0]), a[1..], b);
    }
  }

  // Further fragments only lengthen what was begun.
  lemma {:induction false} MoreField(c: Callbacks, frags: seq<View>, v: View)
    requires c.mode == InField && c.fieldStart.Some? && Pieces(frags, v)
    ensures Steps(c, FieldEvents(frags)) == c.(fieldLen := c.fieldLen + v.len)
    decreases |frags|
  {
    var events := FieldEvents(frags);
    assert events[1..] == FieldEvents(frags[1..]);
    if |frags| == 1 {
      assert FieldEvents(frags[1..]) == [];
    } else {
      MoreField(Step(c, events[0]), frags[1..], View(v.start + frags[0].len, v.len - frags[0].len));
    }
  }

  lemma {:induction false} MoreValue(c: Callbacks, frags: seq<View>, v: View)
    requires c.mode == InValue && Pieces(frags, v)
    ensures Steps(c, ValueEvents(frags)) == c.(valueLen := c.valueLen + v.len)
    decreases |frags|
  {
    var events := ValueEvents(frags);
    assert events[1..] == ValueEvents(frags[1..]);
    if |frags| == 1 {
      assert ValueEvents(frags[1..]) == [];
    } else {
      MoreValue(Step(c, events[0]), frags[1..], View(v.start + frags[0].len, v.len - frags[0].len));
    }
  }

  // The state once a field has begun at a place: either the very first one, or after a pair.
  function Begun(c: Callbacks): Callbacks {
    if c.mode == InValue then Recorded(c).(fieldLen := 0, mode := InField) else c
  }

  lemma WholeField(c: Callbacks, frags: seq<View>, v: View)
    requires (c.mode == InField ==> c.fieldStart.None? && c.fieldLen == 0) && Pieces(frags, v)
    ensures Steps(c, FieldEvents(frags)) == Begun(c).(fieldStart := Some(v.start), fieldLen := v.len)
  {
    var events := FieldEvents(frags);
    assert events[1..] == FieldEvents(frags[1..]);
    var c1 := Step(c, events[0]);
    assert c1 == Begun(c).(fieldStart := Some(v.start), fieldLen := frags[0].len);
    if |frags| == 1 {
      assert FieldEvents(frags[1..]) == [];
    } else {
      MoreField(c1, frags[1..], View(v.start + frags[0].len, v.len - frags[0].len));
    }
  }

  lemma WholeValue(c: Callbacks, frags: seq<View>, v: View)
    requires c.mode == InField && Pieces(frags, v)
    ensures Steps(c, ValueEvents(frags)) == c.(valueStart := v.start, valueLen := v.len, mode := InValue)
  {
    var events := ValueEvents(frags);
    assert events[1..] == ValueEvents(frags[1..]);
    var c1 := Step(c, events[0]);
    if |frags| == 1 {
      assert ValueEvents(frags[1..]) == [];
    } else {
      MoreValue(c1, frags[1..], View(v.start + frags[0].len, v.len - frags[0].len));
    }
  }

  // --- all the headers ---

  // With the fields of these headers in lower case.
  function LowerAll(buf: seq<byte>, headers: seq<Header>): (r: seq<byte>)
    ensures |r| == |buf|
  {
    if headers == [] then buf
    else LowerIn(LowerAll(buf, headers[..|headers| - 1]), headers[|headers| - 1].field)
  }

  function Views(headers: seq<Header>): seq<(View, View)> {
    seq(|headers|, i requires 0 <= i < |headers| => (headers[i].field, headers[i].value))
  }

  // The last header is still open, those before it are recorded.
  function Open(buf: seq<byte>, headers: seq<Header>): Callbacks
    requires headers != []
  {
    var done, last := headers[..|headers| - 1], headers[|headers| - 1];
    Callbacks(LowerAll(buf, done), InValue, Some(last.field.start), last.field.len, last.value.start, last.value.len, Views(done))
  }

  ghost predicate AllCut(cuts: seq<Cut>, headers: seq<Header>) {
    |cuts| == |headers| && forall i | 0 <= i < |cuts| :: Cuts(cuts[i], headers[i])
  }

  lemma RecordedOpen(buf: seq<byte>, headers: seq<Header>)
    requires headers != []
    ensures Recorded(Open(buf, headers)).buf == LowerAll(buf, headers)
    ensures Recorded(Open(buf, headers)).headers == Views(headers)
  {
  }

  lemma OneHeader(c: Callbacks, cut: Cut, h: Header)
    requires (c.mode == InField ==> c.fieldStart.None? && c.fieldLen == 0) && Cuts(cut, h)
    ensures Steps(c, FieldEvents(cut.field) + ValueEvents(cut.value)) ==
            Begun(c).(fieldStart := Some(h.field.start), fieldLen := h.field.len,
                      valueStart := h.value.start, valueLen := h.value.len, mode := InValue)
  {
    StepsTogether(c, FieldEvents(cut.field), ValueEvents(cut.value));
    WholeField(c, cut.field, h.field);
    WholeValue(Steps(c, FieldEvents(cut.field)), cut.value, h.value);
  }

  lemma {:induction false} OpenAfter(buf: seq<byte>, cuts: seq<Cut>, headers: seq<Header>)
    requires AllCut(cuts, headers) && headers != []
    ensures Steps(Init(buf), Events(cuts)) == Open(buf, headers)
    decreases |cuts|
  {
    var n := |cuts| - 1;
    var before := Steps(Init(buf), Events(cuts[..n]));
    var more := FieldEvents(cuts[n].field) + ValueEvents(cuts[n].value);
    assert Events(cuts) == Events(cuts[..n]) + more;
    StepsTogether(Init(buf), Events(cuts[..n]), more);
    if n == 0 {
      assert Events(cuts[..n]) == [] && before == Init(buf);
    } else {
      OpenAfter(buf, cuts[..n], headers[..n]);
      RecordedOpen(buf, headers[..n]);
    }
    OneHeader(before, cuts[n], headers[n]);
    assert Views([]) == [];
  }

  // The headers lie one after the other, as the parser goes through the buffer.
  predicate InOrder(headers: seq<Header>, size: nat) {
    && (forall i | 0 <= i < |headers| ::
          && headers[i].field.start + headers[i].field.len <= headers[i].value.start
          && headers[i].value.start + headers[i].value.len <= size)
    && (forall i, j | 0 <= i < j < |headers| :: headers[i].value.start + headers[i].value.len <= headers[j].field.start)
  }

  predicate InSomeField(headers: seq<Header>, k: nat) {
    exists i :: 0 <= i < |headers| && headers[i].field.start <= k < headers[i].field.start + headers[i].field.len
  }

  lemma {:induction false} LowerAllAt(buf: seq<byte>, headers: seq<Header>, k: nat)
    requires k < |buf|
    ensures LowerAll(buf, headers)[k] == if InSomeField(headers, k) then ToLower(buf[k]) else buf[k]
  {
    if headers != [] {
      var n := |headers| - 1;
      var done := headers[..n];
      LowerAllAt(buf, done, k);
      assert forall i | 0 <= i < n :: done[i] == headers[i];
      if InSomeField(done, k) {
        var i :| 0 <= i < |done| && done[i].field.start <= k < done[i].field.start + done[i].field.len;
        assert headers[i] == done[i];
      }
    }
  }

  // What a view shows.
  function Shown(buf: seq<byte>, v: View): seq<byte>
    requires Fits(buf, v)
  {
    buf[v.start..v.start + v.len]
  }

  /** However the parser cuts the fields and values into fragments, in the end there is for each
      header one pair, in order: the field in lower case, and the value as it came. */
  lemma FragmentsDoNotMatter(buf: seq<byte>, cuts: seq<Cut>, headers: seq<Header>, i: nat)
    requires AllCut(cuts, headers) && InOrder(headers, |buf|) && i < |headers|
    ensures var c := Steps(Init(buf), Events(cuts) + [HeadersComplete]);
            && |c.headers| == |headers| && |c.buf| == |buf|
            && c.headers[i] == (headers[i].field, headers[i].value)
            && Fits(buf, headers[i].field) && Fits(buf, headers[i].value)
            && Shown(c.buf, c.headers[i].0) == Lower(Shown(buf, headers[i].field))
            && Shown(c.buf, c.headers[i].1) == Shown(buf, headers[i].value)
  {
    StepsTogether(Init(buf), Events(cuts), [HeadersComplete]);
    OpenAfter(buf, cuts, headers);
    RecordedOpen(buf, headers);
    var c := Steps(Init(buf), Events(cuts) + [HeadersComplete]);
    assert c == Steps(Step(Open(buf, headers), HeadersComplete), []);
    var h := headers[i];
    forall k | 0 <= k < |buf|
      ensures h.field.start <= k < h.field.start + h.field.len ==> c.buf[k] == ToLower(buf[k])
      ensures h.value.start <= k < h.value.start + h.value.len ==> c.buf[k] == buf[k]
    {
      LowerAllAt(buf, headers, k);
      ValueInNoField(headers, |buf|, i, k);
    }
  }

  lemma ValueInNoField(headers: seq<Header>, size: nat, i: nat, k: nat)
    requires InOrder(headers, size) && i < |headers|
    ensures headers[i].value.start <= k < headers[i].value.start + headers[i].value.len ==> !InSomeField(headers, k)
  {
    forall j | 0 <= j < |headers|
      ensures headers[i].value.start <= k < headers[i].value.start + headers[i].value.len ==>
              !(headers[j].field.start <= k < headers[j].field.start + headers[j].field.len)
    {
    }
  }

  /** With no headers at all nothing is recorded. */
  lemma NoHeaders(buf: seq<byte>)
    ensures Steps(Init(buf), Events([]) + [HeadersComplete]) == Init(buf)
  {
    assert Events([]) + [HeadersComplete] == [HeadersComplete];
    assert Steps(Init(buf), [HeadersComplete]) == Steps(Init(buf), [HeadersComplete][1..]);
  }
}
