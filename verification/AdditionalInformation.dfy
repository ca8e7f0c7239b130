/** The type-length-value list in front of every cEMI frame.  Its length byte and
    the countdown of the parser are unsigned bytes, so both wrap. */
module AdditionalInformation {
  import opened Bytes
  import opened Wrappers
  import opened ByteBuffers

  datatype Element = Element(infoType: byte, data: seq<byte>)

  function ElementBytes(e: Element): seq<byte> {
    [e.infoType, Cast8(|e.data|)] + e.data
  }

  function ElementsBytes(es: seq<Element>): seq<byte> {
    if es == [] then [] else ElementBytes(es[0]) + ElementsBytes(es[1..])
  }

  /** The real size of a list of elements, without wrap-around. */
  function Size(es: seq<Element>): nat {
    if es == [] then 0 else FrameSize(es[0]) + Size(es[1..])
  }

  function FrameSize(e: Element): nat {
    2 + |e.data|
  }

  function InfoBytes(es: seq<Element>): seq<byte> {
    [Cast8(Size(es))] + ElementsBytes(es)
  }

  /** The countdown after an element of `size` bytes. */
  function Less8(remaining: byte, size: nat): byte {
    remaining - Cast8(size)
  }

  function ParseElements(remaining: byte, bs: seq<byte>): (r: Parsed<seq<Element>>)
    ensures r.Ok? ==> |r.rest| <= |bs|
    decreases |bs|
  {
    if remaining == 0 then Ok([], bs)
    else if |bs| < 2 || |bs| < 2 + Numeral(bs[1]) then Fail(OutOfBounds)
    else
      var size := 2 + Numeral(bs[1]);
      var (es, rest) :- ParseElements(Less8(remaining, size), bs[size..]);
      Ok([Element(bs[0], bs[2..size])] + es, rest)
  }

  function ParseInfo(bs: seq<byte>): Parsed<seq<Element>> {
    if bs == [] then Fail(OutOfBounds) else ParseElements(bs[0], bs[1..])
  }

  /** The length byte of an element can hold its size. */
  predicate Sized(es: seq<Element>) {
    forall e <- es :: |e.data| < 256
  }

  /** A countdown that starts at `remaining` reaches zero after the last element
      and not before. */
  predicate StopsAt(remaining: byte, es: seq<Element>)
    decreases |es|
  {
    if es == [] then remaining == 0
    else remaining != 0 && StopsAt(Less8(remaining, FrameSize(es[0])), es[1..])
  }

  /** No element is longer than what the countdown has left. */
  predicate NoOverrun(remaining: nat, es: seq<Element>)
    decreases |es|
  {
    es == [] || (FrameSize(es[0]) <= remaining && NoOverrun(remaining - FrameSize(es[0]), es[1..]))
  }

  /** No proper prefix of the list has the same size, modulo 256, as all of it. */
  ghost predicate SelfDelimiting(es: seq<Element>) {
    forall k | 0 <= k < |es| :: Size(es[..k]) % 256 != Size(es) % 256
  }

  /** The number of elements after which a countdown from `remaining` first reaches zero. */
  function StopIndex(remaining: byte, es: seq<Element>): (k: nat)
    ensures k <= |es|
    decreases |es|
  {
    if es == [] || remaining == 0 then 0
    else 1 + StopIndex(Less8(remaining, FrameSize(es[0])), es[1..])
  }

  /** The exact meaning of a completed parse: it accepts the bytes of a list of
      elements followed by anything, where the countdown stops right after the list. */
  lemma ParseElementsMeaning(remaining: byte, bs: seq<byte>, es: seq<Element>, rest: seq<byte>)
    ensures ParseElements(remaining, bs) == Ok(es, rest)
       <==> bs == ElementsBytes(es) + rest && Sized(es) && StopsAt(remaining, es)
  {
    hide ParseElements, ElementsBytes, StopsAt, Sized;
    if ParseElements(remaining, bs) == Ok(es, rest) {
      ParseTakesElements(remaining, bs);
    }
    if bs == ElementsBytes(es) + rest && Sized(es) && StopsAt(remaining, es) {
      ElementsParse(remaining, es, rest);
    }
  }

  lemma {:induction false} ParseTakesElements(remaining: byte, bs: seq<byte>)
    requires ParseElements(remaining, bs).Ok?
    ensures var p := ParseElements(remaining, bs);
      bs == ElementsBytes(p.value) + p.rest && Sized(p.value) && StopsAt(remaining, p.value)
    decreases |bs|
  {
    hide Less8, ElementBytes, Numeral;
    if remaining != 0 {
      var size := 2 + Numeral(bs[1]);
      ByteBound(bs[1]);
      var e, next := Element(bs[0], bs[2..size]), Less8(remaining, size);
      ParseTakesElements(next, bs[size..]);
      var q := ParseElements(next, bs[size..]);
      OneElement(bs, e);
      AppendedElement(e, q.value);
      Regroup(ElementBytes(e), ElementsBytes(q.value), q.rest);
    }
  }

  lemma OneElement(bs: seq<byte>, e: Element)
    requires |bs| >= 2 && |bs| >= 2 + Numeral(bs[1])
    requires e == Element(bs[0], bs[2..2 + Numeral(bs[1])])
    ensures bs == ElementBytes(e) + bs[FrameSize(e)..]
  {
    hide Cast8;
    var size := 2 + Numeral(bs[1]);
    CastOfValue(bs[1]);
    assert ElementBytes(e) == bs[..size];
    assert bs == bs[..size] + bs[size..];
  }

  lemma AppendedElement(e: Element, es: seq<Element>)
    ensures ElementsBytes([e] + es) == ElementBytes(e) + ElementsBytes(es)
    ensures ([e] + es)[1..] == es
    ensures Sized(es) && |e.data| < 256 ==> Sized([e] + es)
  {
    hide ElementBytes;
    assert ([e] + es)[1..] == es;
  }

  lemma Regroup(a: seq<byte>, b: seq<byte>, c: seq<byte>)
    ensures a + (b + c) == a + b + c
  {
  }

  lemma {:induction false} ElementsParse(remaining: byte, es: seq<Element>, rest: seq<byte>)
    requires Sized(es) && StopsAt(remaining, es)
    ensures ParseElements(remaining, ElementsBytes(es) + rest) == Ok(es, rest)
    decreases |es|
  {
    hide Less8, ElementBytes, Numeral;
    if es == [] {
      assert ElementsBytes(es) + rest == rest;
    } else {
      var e, tail := es[0], ElementsBytes(es[1..]) + rest;
      assert e in es;
      Regroup(ElementBytes(e), ElementsBytes(es[1..]), rest);
      ParseCons(remaining, e, tail);
      ElementsParse(Less8(remaining, FrameSize(e)), es[1..], rest);
      assert [e] + es[1..] == es;
    }
  }

  /** One turn of the parse loop. */
  lemma ParseCons(remaining: byte, e: Element, tail: seq<byte>)
    requires remaining != 0 && |e.data| < 256
    ensures ParseElements(remaining, ElementBytes(e) + tail)
         == match ParseElements(Less8(remaining, FrameSize(e)), tail)
            case Ok(es, rest) => Ok([e] + es, rest)
            case Fail(error) => Fail(error)
  {
    hide Less8, Cast8, Numeral;
    CastNumeral(|e.data|);
    var bs := ElementBytes(e) + tail;
    var size := FrameSize(e);
    assert bs[..2] == [e.infoType, Cast8(|e.data|)];
    assert bs[2..size] == e.data && bs[size..] == tail;
  }

  /** A completed parse consumes 1 + s bytes with s congruent to the declared
      length; s is the declared length exactly when no element overruns; and
      writing the parsed list gives back the consumed bytes in every case. */
  lemma ParsedInfo(bs: seq<byte>)
    requires ParseInfo(bs).Ok?
    ensures var p := ParseInfo(bs);
      && bs == InfoBytes(p.value) + p.rest
      && |bs| - |p.rest| == 1 + Size(p.value)
      && Size(p.value) % 256 == Numeral(bs[0])
      && (Size(p.value) == Numeral(bs[0]) <==> NoOverrun(Numeral(bs[0]), p.value))
      && Sized(p.value) && SelfDelimiting(p.value)
  {
    hide ParseElements, ElementsBytes, Size, StopsAt, NoOverrun, Numeral, Cast8, Sized, SelfDelimiting;
    var p := ParseInfo(bs);
    ParseTakesElements(bs[0], bs[1..]);
    StopsAtSize(bs[0], p.value);
    ElementsLength(p.value);
    StopsAtMeaning(p.value);
    assert bs == [bs[0]] + bs[1..];
    Regroup([bs[0]], ElementsBytes(p.value), p.rest);
  }

  /** A countdown that stops right after the list started from its size, modulo
      256, and never went below zero exactly when it started from the size itself. */
  lemma StopsAtSize(remaining: byte, es: seq<Element>)
    requires StopsAt(remaining, es)
    ensures Cast8(Size(es)) == remaining
    ensures Size(es) % 256 == Numeral(remaining)
    ensures Size(es) == Numeral(remaining) <==> NoOverrun(Numeral(remaining), es)
  {
    hide StopsAt, Size, NoOverrun, Cast8, Numeral;
    StopsAtCast(remaining, es);
    CastOfValue(remaining);
    CastOfNumeral(remaining);
    CastCongruent(Size(es), Numeral(remaining));
    ByteBound(remaining);
    if NoOverrun(Numeral(remaining), es) {
      NoOverrunFits(Numeral(remaining), es);
    }
    if Size(es) == Numeral(remaining) {
      FitsNoOverrun(Numeral(remaining), es);
    }
  }

  lemma {:induction false} StopsAtCast(remaining: byte, es: seq<Element>)
    requires StopsAt(remaining, es)
    ensures Cast8(Size(es)) == remaining
    decreases |es|
  {
    hide Cast8, Less8, Size;
    EmptySize();
    if es != [] {
      StopsAtCast(Less8(remaining, FrameSize(es[0])), es[1..]);
      CountDown(remaining, FrameSize(es[0]), Size(es[1..]));
      SizeOfTail(es);
    }
  }

  lemma CountDown(remaining: byte, size: nat, more: nat)
    ensures Cast8(size + more) == remaining <==> Cast8(more) == Less8(remaining, size)
  {
    CastSum(size, more);
    hide Cast8;
  }

  lemma SizeOfTail(es: seq<Element>)
    requires es != []
    ensures Size(es) == FrameSize(es[0]) + Size(es[1..])
  {
  }

  lemma {:induction false} NoOverrunFits(n: nat, es: seq<Element>)
    requires NoOverrun(n, es)
    ensures Size(es) <= n
    decreases |es|
  {
    if es != [] {
      NoOverrunFits(n - FrameSize(es[0]), es[1..]);
    }
  }

  lemma {:induction false} FitsNoOverrun(n: nat, es: seq<Element>)
    requires Size(es) <= n
    ensures NoOverrun(n, es)
    decreases |es|
  {
    if es != [] {
      FitsNoOverrun(n - FrameSize(es[0]), es[1..]);
    }
  }

  lemma {:induction false} ElementsLength(es: seq<Element>)
    ensures |ElementsBytes(es)| == Size(es)
  {
    if es != [] {
      ElementsLength(es[1..]);
    }
  }

  /** What parsing makes of any written list: the shortest prefix whose size is
      congruent to the whole, the other elements being left unread. */
  lemma ParseOfWrittenInfo(es: seq<Element>, rest: seq<byte>)
    requires Sized(es)
    ensures var k := StopIndex(Cast8(Size(es)), es);
      && ParseInfo(InfoBytes(es) + rest) == Ok(es[..k], ElementsBytes(es[k..]) + rest)
      && SelfDelimiting(es[..k]) && Size(es[..k]) % 256 == Size(es) % 256
  {
    hide ParseInfo, ParseElements, StopIndex, StopsAt, ElementsBytes, Size, Cast8, SelfDelimiting;
    var r := Cast8(Size(es));
    var k := StopIndex(r, es);
    StopIndexStops(r, es);
    StopsAtSize(r, es[..k]);
    StopsAtMeaning(es[..k]);
    CastCongruent(Size(es[..k]), Size(es));
    var tail := ElementsBytes(es[k..]) + rest;
    assert Sized(es[..k]);
    ElementsParse(r, es[..k], tail);
    CutBytes(es, k);
    Regroup4(r, ElementsBytes(es[..k]), ElementsBytes(es[k..]), rest);
    ParseInfoCons(r, ElementsBytes(es[..k]) + tail);
  }

  lemma Regroup4(r: byte, a: seq<byte>, b: seq<byte>, c: seq<byte>)
    ensures [r] + (a + b) + c == [r] + (a + (b + c))
  {
  }

  lemma ParseInfoCons(length: byte, bs: seq<byte>)
    ensures ParseInfo([length] + bs) == ParseElements(length, bs)
  {
    assert ([length] + bs)[1..] == bs;
  }

  lemma CutBytes(es: seq<Element>, k: nat)
    requires k <= |es|
    ensures ElementsBytes(es) == ElementsBytes(es[..k]) + ElementsBytes(es[k..])
    ensures Size(es) == Size(es[..k]) + Size(es[k..])
  {
    hide ElementsBytes, Size;
    ElementsConcat(es[..k], es[k..]);
    SizeConcat(es[..k], es[k..]);
    assert es[..k] + es[k..] == es;
  }

  lemma {:induction false} StopIndexStops(remaining: byte, es: seq<Element>)
    requires Cast8(Size(es)) == remaining
    ensures StopsAt(remaining, es[..StopIndex(remaining, es)])
    decreases |es|
  {
    hide Less8, Size, Cast8;
    if es == [] {
      EmptySize();
    } else if remaining != 0 {
      var next := Less8(remaining, FrameSize(es[0]));
      CastOfTail(es);
      StopIndexStops(next, es[1..]);
      var k := StopIndex(remaining, es);
      assert es[..k][1..] == es[1..][..k - 1];
    }
  }

  lemma EmptySize()
    ensures Size([]) == 0 && Cast8(Size([])) == 0
  {
  }

  lemma CastOfTail(es: seq<Element>)
    requires es != []
    ensures Cast8(Size(es[1..])) == Less8(Cast8(Size(es)), FrameSize(es[0]))
  {
    hide Cast8, Size, Less8;
    CountDown(Cast8(Size(es)), FrameSize(es[0]), Size(es[1..]));
    SizeOfTail(es);
  }

  lemma {:induction false} ElementsConcat(a: seq<Element>, b: seq<Element>)
    ensures ElementsBytes(a + b) == ElementsBytes(a) + ElementsBytes(b)
  {
    hide ElementBytes;
    if a == [] {
      assert a + b == b;
    } else {
      calc {
        ElementsBytes(a + b);
        { assert (a + b)[0] == a[0] && (a + b)[1..] == a[1..] + b; }
        ElementBytes(a[0]) + ElementsBytes(a[1..] + b);
        { ElementsConcat(a[1..], b); }
        ElementBytes(a[0]) + (ElementsBytes(a[1..]) + ElementsBytes(b));
        (ElementBytes(a[0]) + ElementsBytes(a[1..])) + ElementsBytes(b);
      }
    }
  }

  lemma {:induction false} SizeConcat(a: seq<Element>, b: seq<Element>)
    ensures Size(a + b) == Size(a) + Size(b)
  {
    if a == [] {
      assert a + b == b;
    } else {
      SizeConcat(a[1..], b);
      assert (a + b)[1..] == a[1..] + b;
    }
  }

  /** Parse after write is the identity exactly on the lists no proper prefix of
      which has a size congruent to the total (and whose lengths fit a byte). */
  lemma InfoRoundTrip(es: seq<Element>, rest: seq<byte>)
    ensures ParseInfo(InfoBytes(es) + rest) == Ok(es, rest) <==> Sized(es) && SelfDelimiting(es)
  {
    hide ParseElements, ElementsBytes, Size, StopsAt, SelfDelimiting, Sized, Cast8, ParseInfo;
    var r := Cast8(Size(es));
    Regroup([r], ElementsBytes(es), rest);
    ParseInfoCons(r, ElementsBytes(es) + rest);
    ParseElementsMeaning(r, ElementsBytes(es) + rest, es, rest);
    StopsAtMeaning(es);
  }

  /** One element with 254 bytes of data: its length byte wraps to zero, and the
      parse does not give it back. */
  lemma FullElementIsLost(infoType: byte, data: seq<byte>, rest: seq<byte>)
    requires |data| == 254
    ensures var es := [Element(infoType, data)];
      Sized(es) && !SelfDelimiting(es) && ParseInfo(InfoBytes(es) + rest) != Ok(es, rest)
  {
    var es := [Element(infoType, data)];
    assert es[1..] == [] && es[..0] == [];
    assert Size(es) == 256 && Size(es[..0]) == 0;
    hide ParseInfo, InfoBytes;
    InfoRoundTrip(es, rest);
  }

  lemma {:induction false} StopsAtMeaning(es: seq<Element>)
    ensures StopsAt(Cast8(Size(es)), es) <==> SelfDelimiting(es)
    decreases |es|
  {
    hide Less8, Size, Cast8;
    EmptySize();
    if es != [] {
      var r := Cast8(Size(es));
      CastOfTail(es);
      StopsAtMeaning(es[1..]);
      CastCongruent(0, Size(es));
      assert r == 0 <==> Size(es) % 256 == 0;
      assert es[..0] == [];
      if StopsAt(r, es) {
        forall k | 0 <= k < |es| ensures Size(es[..k]) % 256 != Size(es) % 256 {
          if k > 0 {
            assert Size(es[1..][..k - 1]) % 256 != Size(es[1..]) % 256;
            PrefixSize(es, k);
          }
        }
      }
      if SelfDelimiting(es) {
        assert Size(es[..0]) % 256 != Size(es) % 256;
        forall k | 0 <= k < |es[1..]| ensures Size(es[1..][..k]) % 256 != Size(es[1..]) % 256 {
          assert Size(es[..k + 1]) % 256 != Size(es) % 256;
          PrefixSize(es, k + 1);
        }
      }
    }
  }

  lemma PrefixSize(es: seq<Element>, k: nat)
    requires 0 < k <= |es|
    ensures Size(es[..k]) % 256 == Size(es) % 256 <==> Size(es[1..][..k - 1]) % 256 == Size(es[1..]) % 256
  {
    hide Size;
    SizeOfTail(es);
    SizeOfTail(es[..k]);
    assert es[..k][1..] == es[1..][..k - 1];
    SameShift(FrameSize(es[0]), Size(es[1..]), Size(es[1..][..k - 1]));
  }

  lemma SameShift(n: nat, a: nat, b: nat)
    ensures (n + a) % 256 == (n + b) % 256 <==> a % 256 == b % 256
  {
    hide Cast8;
    CastSum(n, a);
    CastSum(n, b);
    CastCongruent(n + a, n + b);
    CastCongruent(a, b);
  }

  /** A list of fewer than 256 bytes, the only kind the standard allows, is
      always self-delimiting. */
  lemma ShortInfoIsSelfDelimiting(es: seq<Element>)
    requires Size(es) < 256
    ensures SelfDelimiting(es) && Sized(es)
  {
    forall k | 0 <= k < |es|
      ensures Size(es[..k]) % 256 != Size(es) % 256 && |es[k].data| < 256
    {
      SizeFrom(es, k);
    }
  }

  lemma SizeFrom(es: seq<Element>, k: nat)
    requires k < |es|
    ensures Size(es) >= Size(es[..k]) + FrameSize(es[k])
  {
    SizeConcat(es[..k], es[k..]);
    assert es[..k] + es[k..] == es;
    assert es[k..][0] == es[k];
  }

  /** A parse that has already put `es` into its result. */
  ghost function Continue(es: seq<Element>, p: Parsed<seq<Element>>): Parsed<seq<Element>> {
    match p
    case Ok(more, rest) => Ok(es + more, rest)
    case Fail(error) => Fail(error)
  }

  lemma ContinueCons(es: seq<Element>, remaining: byte, e: Element, tail: seq<byte>)
    requires remaining != 0 && |e.data| < 256
    ensures Continue(es, ParseElements(remaining, ElementBytes(e) + tail))
         == Continue(es + [e], ParseElements(Less8(remaining, FrameSize(e)), tail))
  {
    hide ParseElements, Less8, ElementBytes;
    ParseCons(remaining, e, tail);
    match ParseElements(Less8(remaining, FrameSize(e)), tail) {
      case Ok(more, _) => assert es + ([e] + more) == es + [e] + more;
      case Fail(_) =>
    }
  }

  lemma ContinueStarts(p: Parsed<seq<Element>>)
    ensures Continue([], p) == p
  {
    match p {
      case Ok(more, _) => assert [] + more == more;
      case Fail(_) =>
    }
  }

  lemma ContinueEnds(es: seq<Element>, bs: seq<byte>)
    ensures Continue(es, ParseElements(0, bs)) == Ok(es, bs)
  {
    assert es + [] == es;
  }

  method Parse(reader: ByteBufferReader) returns (elements: seq<Element>)
    requires reader.Valid() && ParseInfo(reader.Rest()).Ok?
    modifies reader
    ensures reader.Valid()
    ensures ParseInfo(old(reader.Rest())) == Ok(elements, reader.Rest())
  {
    hide ParseInfo, ParseElements, Less8, ElementBytes, Continue;
    assert reader.Rest() != [] by {
      InfoThere(reader.Rest());
    }
    elements := [];
    var remainingLength := reader.ReadUint8();
    ParseInfoCons(remainingLength, reader.Rest());
    ghost var whole := ParseElements(remainingLength, reader.Rest());
    ContinueStarts(whole);
    while remainingLength != 0
      invariant reader.Valid()
      invariant whole == Continue(elements, ParseElements(remainingLength, reader.Rest()))
      decreases |reader.Rest()|
    {
      StillOk(elements, ParseElements(remainingLength, reader.Rest()));
      var e := ParseElement(remainingLength, reader);
      ContinueCons(elements, remainingLength, e, reader.Rest());
      elements := elements + [e];
      remainingLength := Less8(remainingLength, |e.data| + 2);
    }
    ContinueEnds(elements, reader.Rest());
  }

  lemma InfoThere(bs: seq<byte>)
    requires ParseInfo(bs).Ok?
    ensures bs != []
  {
  }

  lemma StillOk(es: seq<Element>, p: Parsed<seq<Element>>)
    requires Continue(es, p).Ok?
    ensures p.Ok?
  {
  }

  method ParseElement(ghost remaining: byte, reader: ByteBufferReader) returns (e: Element)
    requires reader.Valid()
    requires remaining != 0 && ParseElements(remaining, reader.Rest()).Ok?
    modifies reader
    ensures reader.Valid()
    ensures |reader.Rest()| < |old(reader.Rest())|
    ensures |e.data| < 256 && old(reader.Rest()) == ElementBytes(e) + reader.Rest()
  {
    hide ParseElements, ElementBytes, Numeral;
    TwoBytesThere(remaining, reader.Rest());
    var infoType := reader.ReadUint8();
    var elementLength := reader.ReadUint8();
    DataThere(remaining, infoType, elementLength, reader.Rest());
    ByteBound(elementLength);
    var data := reader.ReadByteSpan(Numeral(elementLength));
    e := Element(infoType, data);
    JoinElement(e, elementLength, reader.Rest());
  }

  lemma TwoBytesThere(remaining: byte, bs: seq<byte>)
    requires remaining != 0 && ParseElements(remaining, bs).Ok?
    ensures |bs| >= 2
  {
  }

  lemma DataThere(remaining: byte, infoType: byte, length: byte, after: seq<byte>)
    requires remaining != 0 && ParseElements(remaining, [infoType] + ([length] + after)).Ok?
    ensures |after| >= Numeral(length)
  {
    hide Numeral;
  }

  lemma JoinElement(e: Element, length: byte, rest: seq<byte>)
    requires |e.data| == Numeral(length)
    ensures [e.infoType] + ([length] + (e.data + rest)) == ElementBytes(e) + rest
  {
    hide Numeral, Cast8;
    CastOfNumeral(length);
  }

  method WriteElement(e: Element, writer: ByteBufferWriter)
    modifies writer
    ensures writer.data == old(writer.data) + ElementBytes(e)
  {
    writer.WriteUint8(e.infoType);
    writer.WriteUint8(Cast8(|e.data|));
    writer.WriteVector(e.data);
  }

  lemma OneMore(es: seq<Element>, i: nat)
    requires i < |es|
    ensures Size(es[..i + 1]) == Size(es[..i]) + FrameSize(es[i])
    ensures ElementsBytes(es[..i + 1]) == ElementsBytes(es[..i]) + ElementBytes(es[i])
  {
    hide ElementBytes;
    ElementsConcat(es[..i], [es[i]]);
    SizeConcat(es[..i], [es[i]]);
    assert es[..i + 1] == es[..i] + [es[i]];
    assert ElementsBytes([es[i]]) == ElementBytes(es[i]) + ElementsBytes([]);
  }

  method TotalLength(elements: seq<Element>) returns (totalLength: byte)
    ensures totalLength == Cast8(Size(elements))
  {
    hide Size, Cast8;
    EmptySize();
    totalLength := 0;
    assert elements[..0] == [];
    for i := 0 to |elements|
      invariant totalLength == Cast8(Size(elements[..i]))
    {
      var frameSize := Cast8(2 + |elements[i].data|);
      OneMore(elements, i);
      CastSum(Size(elements[..i]), FrameSize(elements[i]));
      totalLength := totalLength + frameSize;
    }
    assert elements[..|elements|] == elements;
  }

  lemma NoElements(head: seq<byte>)
    ensures head + ElementsBytes([]) == head
  {
  }

  method Write(elements: seq<Element>, writer: ByteBufferWriter)
    modifies writer
    ensures writer.data == old(writer.data) + InfoBytes(elements)
  {
    hide ElementBytes, ElementsBytes, Size, Cast8;
    var totalLength := TotalLength(elements);
    writer.WriteUint8(totalLength);
    ghost var head := writer.data;
    NoElements(head);
    assert elements[..0] == [];
    for i := 0 to |elements|
      invariant writer.data == head + ElementsBytes(elements[..i])
    {
      WriteElement(elements[i], writer);
      OneMore(elements, i);
    }
    assert elements[..|elements|] == elements;
    assert head + ElementsBytes(elements) == old(writer.data) + InfoBytes(elements);
  }
}
