/**
 * The payment-order writer (abo/order.go): an Order holds Groups, a Group
 * holds Items, and writing serialises them into fixed-width ABO lines.
 *
 * Each output line is specified as a byte string (ItemLine, GroupBytes,
 * HeaderLine, ...); each Write method is proved to append exactly that
 * string, and the layout lemmas say where every field sits.
 */
module AboOrder {
  import opened Wrappers
  import opened AboIO
  import Windows1250

  /** The longest recipient message written: four lines of 35 bytes. */
  const MaxMessageLen: nat := 4 * 35

  const MessageTag: bytes := [0x41, 0x56, 0x3A]        // "AV:"
  const GroupStart: bytes := [0x32, SPACE]             // "2 "
  const GroupEnd: bytes := [0x33, SPACE, PLUS]         // "3 +"
  const HeaderTag: bytes := [0x55, 0x48, 0x4C, 0x31]   // "UHL1"
  const AccountingStart: bytes := [0x31, SPACE]        // "1 "
  const AccountingEnd: bytes := [0x35, SPACE, PLUS]    // "5 +"

  function Min(a: int, b: int): int {
    if a < b then a else b
  }

  /** A string written at its own length is written unchanged. */
  lemma ExactField(s: bytes)
    ensures StrField(s, |s|) == s
  {
    assert Repeat(SPACE, 0) == [];
  }

  /** When x + p begins h, so does x, and p follows it. */
  lemma PrefixStep(x: bytes, p: bytes, h: bytes)
    requires |x + p| <= |h| && h[..|x + p|] == x + p
    ensures h[..|x|] == x && h[|x|..|x| + |p|] == p
    ensures |p| == 1 ==> h[|x|] == p[0]
  {
    var whole := h[..|x + p|];
    var left := h[..|x|];
    var mid := h[|x|..|x| + |p|];
    forall k | 0 <= k < |x|
      ensures left[k] == x[k]
    {
      assert left[k] == whole[k];
    }
    forall k | 0 <= k < |p|
      ensures mid[k] == p[k]
    {
      assert mid[k] == whole[|x| + k];
    }
  }

  /** The constant integer fields of the header and accounting lines. */
  lemma ConstantFields()
    ensures IntField(0, 3) == Repeat(ZERO, 3) && IntField(0, 6) == Repeat(ZERO, 6)
    ensures IntField(999, 3) == [ZERO + 9, ZERO + 9, ZERO + 9]
    ensures IntField(1501, 4) == [ZERO + 1, ZERO + 5, ZERO, ZERO + 1]
  {
    assert Digits(999) == [ZERO + 9, ZERO + 9, ZERO + 9];
    assert Digits(1501) == [ZERO + 1, ZERO + 5, ZERO, ZERO + 1];
  }

  /** A slice of h holding x + y holds x, then y. */
  lemma SliceSplit(h: bytes, s: nat, x: bytes, y: bytes)
    requires s + |x + y| <= |h| && h[s..s + |x + y|] == x + y
    ensures h[s..s + |x|] == x && h[s + |x|..s + |x| + |y|] == y
  {
    var whole := h[s..s + |x + y|];
    var left := h[s..s + |x|];
    var right := h[s + |x|..s + |x| + |y|];
    forall k | 0 <= k < |x|
      ensures left[k] == x[k]
    {
      assert left[k] == whole[k];
    }
    forall k | 0 <= k < |y|
      ensures right[k] == y[k]
    {
      assert right[k] == whole[|x| + k];
    }
  }

  /** The images of xs under f, concatenated in order. */
  function ConcatMap<T>(xs: seq<T>, f: T -> bytes): bytes {
    if xs == [] then [] else ConcatMap(xs[..|xs| - 1], f) + f(xs[|xs| - 1])
  }

  lemma {:induction false} ConcatMapConcat<T>(a: seq<T>, b: seq<T>, f: T -> bytes)
    ensures ConcatMap(a + b, f) == ConcatMap(a, f) + ConcatMap(b, f)
  {
    if b != [] {
      assert (a + b)[..|a + b| - 1] == a + b[..|b| - 1];
      ConcatMapConcat(a, b[..|b| - 1], f);
      AppendAssoc(ConcatMap(a, f), ConcatMap(b[..|b| - 1], f), f(b[|b| - 1]));
    } else {
      assert a + b == a;
    }
  }

  lemma ConcatMapSnoc<T>(xs: seq<T>, i: nat, f: T -> bytes)
    requires i < |xs|
    ensures ConcatMap(xs[..i + 1], f) == ConcatMap(xs[..i], f) + f(xs[i])
  {
    assert xs[..i + 1][..i] == xs[..i];
  }

  /** Cutting xs anywhere cuts the concatenated images at the same place. */
  lemma {:induction false} ConcatMapSplit<T>(xs: seq<T>, n: nat, f: T -> bytes)
    requires n <= |xs|
    ensures ConcatMap(xs, f) == ConcatMap(xs[..n], f) + ConcatMap(xs[n..], f)
    decreases |xs|
  {
    if n == |xs| {
      assert xs[..n] == xs;
      assert xs[n..] == [];
    } else {
      var init := xs[..|xs| - 1];
      var last := f(xs[|xs| - 1]);
      ConcatMapSplit(init, n, f);
      assert init[..n] == xs[..n];
      assert xs[n..][..|xs[n..]| - 1] == init[n..];
      assert ConcatMap(xs[n..], f) == ConcatMap(init[n..], f) + last;
      AppendAssoc(ConcatMap(xs[..n], f), ConcatMap(init[n..], f), last);
    }
  }

  /** The images of xs[..k], then that of xs[k], then those of the rest. */
  lemma ConcatMapAt<T>(xs: seq<T>, k: nat, f: T -> bytes)
    requires k < |xs|
    ensures ConcatMap(xs, f) == ConcatMap(xs[..k], f) + f(xs[k]) + ConcatMap(xs[k + 1..], f)
  {
    ConcatMapSplit(xs, k + 1, f);
    ConcatMapSnoc(xs, k, f);
  }

  /** In x + l + y, the piece l sits right after x. */
  lemma MiddlePiece(x: bytes, l: bytes, y: bytes)
    ensures (x + l + y)[|x|..|x| + |l|] == l
  {
    var b := x + l + y;
    forall i | 0 <= i < |l|
      ensures b[|x|..|x| + |l|][i] == l[i]
    {
      assert b[|x| + i] == l[i];
    }
  }

  /** In the concatenation, the image of xs[k] follows the images of xs[..k]. */
  lemma ConcatMapPiece<T>(xs: seq<T>, k: nat, f: T -> bytes)
    requires k < |xs|
    ensures var j := ConcatMap(xs, f);
      var at := |ConcatMap(xs[..k], f)|;
      at + |f(xs[k])| <= |j| && j[at..at + |f(xs[k])|] == f(xs[k])
  {
    ConcatMapAt(xs, k, f);
    MiddlePiece(ConcatMap(xs[..k], f), f(xs[k]), ConcatMap(xs[k + 1..], f));
  }

  // ---------------------------------------------------------------------
  // Items

  /** A payment order item; amounts in minor units. */
  datatype Item = Item(
    recipientPrefix: int,
    recipientNum: int,
    recipientBank: int,
    amount: int,
    vs: int,
    ks: int,
    ss: int,
    message: bytes)
  {
    /** Item.Write: one item line. */
    method Write(w: Writer)
      modifies w
      ensures w.out == old(w.out) + ItemLine(this)
    {
      WriteHead(w);
      WriteSs(w);
      WriteMessage(w);
      w.WriteLineEnd();
      ItemLineWritten(old(w.out), this);
    }

    /** The specific symbol and a separator, only when it is not zero. */
    method WriteSs(w: Writer)
      modifies w
      ensures w.out == old(w.out) + SsPart(ss)
    {
      if ss != 0 {
        w.WriteInt(ss, 10);
        w.WriteStr([SPACE], 1);
        SsPartWritten(old(w.out), ss);
      }
    }

    /** The message for the recipient, only when it is not empty. */
    method WriteMessage(w: Writer)
      modifies w
      ensures w.out == old(w.out) + MessagePart(message)
    {
      if |message| > 0 {
        var trimmed := message;
        if |message| > MaxMessageLen {
          trimmed := trimmed[..MaxMessageLen];
        }
        w.WriteStr(MessageTag + trimmed, 3 + |trimmed|);
      }
    }

    /** The fixed 54 columns of the line. */
    method WriteHead(w: Writer)
      modifies w
      ensures w.out == old(w.out) + ItemHead(this)
    {
      // recipient account 000000-0000000000, separator
      w.WriteInt(recipientPrefix, 6);
      w.WriteStr([MINUS], 1);
      w.WriteInt(recipientNum, 10);
      w.WriteStr([SPACE], 1);
      // amount, separator, variable symbol, separator
      w.WriteMonetaryAmount(amount, 15);
      w.WriteStr([SPACE], 1);
      w.WriteInt(vs, 10);
      w.WriteStr([SPACE], 1);
      // bank code, constant symbol, separator
      w.WriteInt(recipientBank, 4);
      w.WriteInt(ks, 4);
      w.WriteStr([SPACE], 1);
      ItemHeadWritten(old(w.out), this);
    }
  }

  /** The 54 columns every item line starts with. */
  function ItemHead(it: Item): bytes {
    IntField(it.recipientPrefix, 6) + [MINUS] + IntField(it.recipientNum, 10) + [SPACE]
    + IntField(it.amount, 15) + [SPACE] + IntField(it.vs, 10) + [SPACE]
    + IntField(it.recipientBank, 4) + IntField(it.ks, 4) + [SPACE]
  }

  /** The optional specific symbol and its separator. */
  function SsPart(ss: int): bytes {
    if ss != 0 then IntField(ss, 10) + [SPACE] else []
  }

  /** The optional message: "AV:" and at most MaxMessageLen bytes of it, in a field exactly that wide. */
  function MessagePart(message: bytes): bytes {
    if |message| > 0 then
      var trimmed := if |message| > MaxMessageLen then message[..MaxMessageLen] else message;
      StrField(MessageTag + trimmed, 3 + |trimmed|)
    else []
  }

  function ItemLine(it: Item): (r: bytes)
    ensures |r| >= 55 && r[|r| - 1] == LF
  {
    ItemHead(it) + SsPart(it.ss) + MessagePart(it.message) + [LF]
  }

  lemma ItemHeadWritten(o: bytes, it: Item)
    ensures o + IntField(it.recipientPrefix, 6) + StrField([MINUS], 1) + IntField(it.recipientNum, 10)
      + StrField([SPACE], 1) + IntField(it.amount, 15) + StrField([SPACE], 1) + IntField(it.vs, 10)
      + StrField([SPACE], 1) + IntField(it.recipientBank, 4) + IntField(it.ks, 4) + StrField([SPACE], 1)
      == o + ItemHead(it)
  {
    ExactField([MINUS]);
    ExactField([SPACE]);
    var x1 := IntField(it.recipientPrefix, 6);
    var x2 := x1 + [MINUS];
    var x3 := x2 + IntField(it.recipientNum, 10);
    var x4 := x3 + [SPACE];
    var x5 := x4 + IntField(it.amount, 15);
    var x6 := x5 + [SPACE];
    var x7 := x6 + IntField(it.vs, 10);
    var x8 := x7 + [SPACE];
    var x9 := x8 + IntField(it.recipientBank, 4);
    var x10 := x9 + IntField(it.ks, 4);
    var x11 := x10 + [SPACE];
    AppendAssoc(o, x1, [MINUS]);
    AppendAssoc(o, x2, IntField(it.recipientNum, 10));
    AppendAssoc(o, x3, [SPACE]);
    AppendAssoc(o, x4, IntField(it.amount, 15));
    AppendAssoc(o, x5, [SPACE]);
    AppendAssoc(o, x6, IntField(it.vs, 10));
    AppendAssoc(o, x7, [SPACE]);
    AppendAssoc(o, x8, IntField(it.recipientBank, 4));
    AppendAssoc(o, x9, IntField(it.ks, 4));
    AppendAssoc(o, x10, [SPACE]);
    assert x11 == ItemHead(it);
  }

  lemma SsPartWritten(o: bytes, ss: int)
    requires ss != 0
    ensures o + IntField(ss, 10) + StrField([SPACE], 1) == o + SsPart(ss)
  {
    ExactField([SPACE]);
    AppendAssoc(o, IntField(ss, 10), [SPACE]);
  }

  lemma ItemLineWritten(o: bytes, it: Item)
    ensures o + ItemHead(it) + SsPart(it.ss) + MessagePart(it.message) + [LF] == o + ItemLine(it)
  {
    var h := ItemHead(it);
    var sp := SsPart(it.ss);
    var m := MessagePart(it.message);
    assert ItemLine(it) == h + sp + m + [LF];
    AppendAssoc(o, h, sp);
    AppendAssoc(o, h + sp, m);
    AppendAssoc(o, h + sp + m, [LF]);
  }

  lemma ItemHeadLength(it: Item)
    ensures |ItemHead(it)| == 54
  {
  }

  /** The message part is "AV:" and the first min(len, 140) bytes, or nothing for an empty message. */
  lemma MessagePartShape(message: bytes)
    ensures message == [] ==> MessagePart(message) == []
    ensures message != [] ==>
      MessagePart(message) == MessageTag + message[..Min(|message|, MaxMessageLen)]
  {
    if message != [] {
      var trimmed := message[..Min(|message|, MaxMessageLen)];
      assert MessagePart(message) == StrField(MessageTag + trimmed, 3 + |trimmed|);
      assert Repeat(SPACE, 0) == [];
    }
  }

  /** The account columns of the head: prefix, '-', number, separator. */
  lemma ItemAccountColumns(it: Item)
    ensures var h := ItemHead(it);
      && |h| == 54
      && h[0..6] == IntField(it.recipientPrefix, 6) && h[6] == MINUS
      && h[7..17] == IntField(it.recipientNum, 10) && h[17] == SPACE
  {
    var h := ItemHead(it);
    var x1 := IntField(it.recipientPrefix, 6);
    var x2 := x1 + [MINUS];
    var x3 := x2 + IntField(it.recipientNum, 10);
    var x4 := x3 + [SPACE];
    var x5 := x4 + IntField(it.amount, 15);
    var x6 := x5 + [SPACE];
    var x7 := x6 + IntField(it.vs, 10);
    var x8 := x7 + [SPACE];
    var x9 := x8 + IntField(it.recipientBank, 4);
    var x10 := x9 + IntField(it.ks, 4);
    var x11 := x10 + [SPACE];
    assert h == x11 && h[..|h|] == h;
    PrefixStep(x10, [SPACE], h);
    PrefixStep(x9, IntField(it.ks, 4), h);
    PrefixStep(x8, IntField(it.recipientBank, 4), h);
    PrefixStep(x7, [SPACE], h);
    PrefixStep(x6, IntField(it.vs, 10), h);
    PrefixStep(x5, [SPACE], h);
    PrefixStep(x4, IntField(it.amount, 15), h);
    PrefixStep(x3, [SPACE], h);
    PrefixStep(x2, IntField(it.recipientNum, 10), h);
    PrefixStep(x1, [MINUS], h);
    assert h[0..6] == h[..6];
  }

  /** The amount and variable-symbol columns of the head. */
  lemma ItemAmountColumns(it: Item)
    ensures var h := ItemHead(it);
      && |h| == 54
      && h[18..33] == IntField(it.amount, 15) && h[33] == SPACE
      && h[34..44] == IntField(it.vs, 10) && h[44] == SPACE
  {
    var h := ItemHead(it);
    var x1 := IntField(it.recipientPrefix, 6);
    var x2 := x1 + [MINUS];
    var x3 := x2 + IntField(it.recipientNum, 10);
    var x4 := x3 + [SPACE];
    var x5 := x4 + IntField(it.amount, 15);
    var x6 := x5 + [SPACE];
    var x7 := x6 + IntField(it.vs, 10);
    var x8 := x7 + [SPACE];
    var x9 := x8 + IntField(it.recipientBank, 4);
    var x10 := x9 + IntField(it.ks, 4);
    var x11 := x10 + [SPACE];
    assert h == x11 && h[..|h|] == h;
    PrefixStep(x10, [SPACE], h);
    PrefixStep(x9, IntField(it.ks, 4), h);
    PrefixStep(x8, IntField(it.recipientBank, 4), h);
    PrefixStep(x7, [SPACE], h);
    PrefixStep(x6, IntField(it.vs, 10), h);
    PrefixStep(x5, [SPACE], h);
    PrefixStep(x4, IntField(it.amount, 15), h);
  }

  /** The bank-code and constant-symbol columns of the head. */
  lemma ItemBankColumns(it: Item)
    ensures var h := ItemHead(it);
      && |h| == 54
      && h[45..49] == IntField(it.recipientBank, 4)
      && h[49..53] == IntField(it.ks, 4) && h[53] == SPACE
  {
    var h := ItemHead(it);
    var x1 := IntField(it.recipientPrefix, 6);
    var x2 := x1 + [MINUS];
    var x3 := x2 + IntField(it.recipientNum, 10);
    var x4 := x3 + [SPACE];
    var x5 := x4 + IntField(it.amount, 15);
    var x6 := x5 + [SPACE];
    var x7 := x6 + IntField(it.vs, 10);
    var x8 := x7 + [SPACE];
    var x9 := x8 + IntField(it.recipientBank, 4);
    var x10 := x9 + IntField(it.ks, 4);
    var x11 := x10 + [SPACE];
    assert h == x11 && h[..|h|] == h;
    PrefixStep(x10, [SPACE], h);
    PrefixStep(x9, IntField(it.ks, 4), h);
    PrefixStep(x8, IntField(it.recipientBank, 4), h);
  }

  /** An item line starts with its 54-column head and ends with a line end. */
  lemma ItemLineHead(it: Item)
    ensures var line := ItemLine(it);
      |line| >= 55 && line[..54] == ItemHead(it) && line[|line| - 1] == LF
  {
    var line := ItemLine(it);
    var head := ItemHead(it);
    var b := head + SsPart(it.ss) + MessagePart(it.message);
    ItemHeadLength(it);
    AppendSplit(b, [LF]);
    AppendSplit(head, SsPart(it.ss));
    AppendSplit(head + SsPart(it.ss), MessagePart(it.message));
    assert line[..54] == head;
  }

  /** A non-zero SS and its separator follow the head. */
  lemma ItemLineSs(it: Item)
    requires it.ss != 0
    ensures var line := ItemLine(it);
      |line| >= 66 && line[54..64] == IntField(it.ss, 10) && line[64] == SPACE
  {
    var line := ItemLine(it);
    var head := ItemHead(it);
    var sp := SsPart(it.ss);
    var a := head + sp;
    var b := a + MessagePart(it.message);
    ItemHeadLength(it);
    AppendSplit(b, [LF]);
    AppendSplit(a, MessagePart(it.message));
    AppendSplit(head, sp);
    AppendSplit(IntField(it.ss, 10), [SPACE]);
    assert line[54..65] == sp;
  }

  /**
   * After the head and the optional SS part comes "AV:" and the first
   * min(len, 140) message bytes iff the message is non-empty, then the line end.
   */
  lemma ItemLineMessage(it: Item)
    ensures var line := ItemLine(it);
      var msgAt := if it.ss != 0 then 65 else 54;
      && (it.message == [] ==> |line| == msgAt + 1)
      && (it.message != [] ==>
            |line| == msgAt + 3 + Min(|it.message|, MaxMessageLen) + 1
            && line[msgAt..msgAt + 3] == MessageTag
            && line[msgAt + 3..|line| - 1] == it.message[..Min(|it.message|, MaxMessageLen)])
  {
    var line := ItemLine(it);
    var head := ItemHead(it);
    var sp := SsPart(it.ss);
    var m := MessagePart(it.message);
    var a := head + sp;
    var b := a + m;
    ItemHeadLength(it);
    assert line == b + [LF] && line[..|line|] == line;
    PrefixStep(b, [LF], line);
    PrefixStep(a, m, line);
    if it.message != [] {
      MessagePartShape(it.message);
      SliceSplit(line, |a|, MessageTag, it.message[..Min(|it.message|, MaxMessageLen)]);
    }
  }

  /**
   * An item line: the 54-column head, then SS and a separator iff SS != 0,
   * then "AV:" and the first min(len, 140) message bytes iff the message is
   * non-empty, then one line end.
   */
  lemma ItemLineLayout(it: Item)
    ensures var line := ItemLine(it);
      var msgAt := if it.ss != 0 then 65 else 54;
      && |line| >= 55
      && line[..54] == ItemHead(it)
      && (it.ss != 0 ==> line[54..64] == IntField(it.ss, 10) && line[64] == SPACE)
      && (it.message == [] ==> |line| == msgAt + 1)
      && (it.message != [] ==>
            |line| == msgAt + 3 + Min(|it.message|, MaxMessageLen) + 1
            && line[msgAt..msgAt + 3] == MessageTag
            && line[msgAt + 3..|line| - 1] == it.message[..Min(|it.message|, MaxMessageLen)])
      && line[|line| - 1] == LF
  {
    ItemLineHead(it);
    if it.ss != 0 {
      ItemLineSs(it);
    }
    ItemLineMessage(it);
  }

  /** A head field written within its width reads back, from the whole line, as its value. */
  lemma ItemLineFieldReadBack(it: Item, at: nat, width: nat, v: int)
    requires 1 <= width && at + width <= 54 && 0 <= v < Pow10(width)
    requires |ItemHead(it)| == 54 && ItemHead(it)[at..at + width] == IntField(v, width)
    ensures |ItemLine(it)| >= 55 && DecodeInt(ItemLine(it)[at..at + width]) == Ok(v)
  {
    ItemLineHead(it);
    IntFieldRoundTrip(v, width);
    DecodeIntInPrefix(ItemLine(it), ItemHead(it), at, width, v);
  }

  /** The six fields of the head, each written within its width, read back as their values. */
  lemma ItemHeadReadBack(it: Item)
    requires 0 <= it.recipientPrefix < Pow10(6) && 0 <= it.recipientNum < Pow10(10)
    requires 0 <= it.amount < Pow10(15) && 0 <= it.vs < Pow10(10)
    requires 0 <= it.recipientBank < Pow10(4) && 0 <= it.ks < Pow10(4)
    ensures var line := ItemLine(it);
      && |line| >= 55
      && DecodeInt(line[0..6]) == Ok(it.recipientPrefix)
      && DecodeInt(line[7..17]) == Ok(it.recipientNum)
      && DecodeInt(line[18..33]) == Ok(it.amount)
      && DecodeInt(line[34..44]) == Ok(it.vs)
      && DecodeInt(line[45..49]) == Ok(it.recipientBank)
      && DecodeInt(line[49..53]) == Ok(it.ks)
  {
    ItemAccountColumns(it);
    ItemAmountColumns(it);
    ItemBankColumns(it);
    ItemLineFieldReadBack(it, 0, 6, it.recipientPrefix);
    ItemLineFieldReadBack(it, 7, 10, it.recipientNum);
    ItemLineFieldReadBack(it, 18, 15, it.amount);
    ItemLineFieldReadBack(it, 34, 10, it.vs);
    ItemLineFieldReadBack(it, 45, 4, it.recipientBank);
    ItemLineFieldReadBack(it, 49, 4, it.ks);
  }

  /**
   * Every field of an item line, written within its width, reads back as
   * its value; a zero SS is not written at all, so only a non-zero one has
   * a column to read back from.
   */
  lemma ItemLineReadBack(it: Item)
    requires 0 <= it.recipientPrefix < Pow10(6) && 0 <= it.recipientNum < Pow10(10)
    requires 0 <= it.amount < Pow10(15) && 0 <= it.vs < Pow10(10)
    requires 0 <= it.recipientBank < Pow10(4) && 0 <= it.ks < Pow10(4)
    requires 0 <= it.ss < Pow10(10)
    ensures var line := ItemLine(it);
      && |line| >= 55
      && DecodeInt(line[0..6]) == Ok(it.recipientPrefix)
      && DecodeInt(line[7..17]) == Ok(it.recipientNum)
      && DecodeInt(line[18..33]) == Ok(it.amount)
      && DecodeInt(line[34..44]) == Ok(it.vs)
      && DecodeInt(line[45..49]) == Ok(it.recipientBank)
      && DecodeInt(line[49..53]) == Ok(it.ks)
      && (it.ss != 0 ==> |line| >= 66 && DecodeInt(line[54..64]) == Ok(it.ss))
  {
    ItemHeadReadBack(it);
    if it.ss != 0 {
      ItemLineSsReadBack(it);
    }
  }

  lemma ItemLineSsReadBack(it: Item)
    requires 0 < it.ss < Pow10(10)
    ensures |ItemLine(it)| >= 66 && DecodeInt(ItemLine(it)[54..64]) == Ok(it.ss)
  {
    ItemLineSs(it);
    IntFieldRoundTrip(it.ss, 10);
  }

  // ---------------------------------------------------------------------
  // Line ends

  /** The number of line ends in s. */
  function CountLF(s: bytes): nat {
    if s == [] then 0 else CountLF(s[..|s| - 1]) + (if s[|s| - 1] == LF then 1 else 0)
  }

  lemma {:induction false} CountLFConcat(a: bytes, b: bytes)
    ensures CountLF(a + b) == CountLF(a) + CountLF(b)
  {
    if b != [] {
      assert (a + b)[..|a + b| - 1] == a + b[..|b| - 1];
      CountLFConcat(a, b[..|b| - 1]);
    } else {
      assert a + b == a;
    }
  }

  lemma {:induction false} NoLFCount(s: bytes)
    requires LF !in s
    ensures CountLF(s) == 0
  {
    if s != [] {
      assert s[|s| - 1] != LF;
      assert LF !in s[..|s| - 1];
      NoLFCount(s[..|s| - 1]);
    }
  }

  /** An integer field never holds a line end. */
  lemma IntFieldHasNoLineEnd(i: int, w: nat)
    ensures LF !in IntField(i, w)
  {
    var d := Itoa(i);
    assert forall k | 0 <= k < |d| :: d[k] != LF by {
      if i < 0 {
        assert d == [MINUS] + Digits(-i);
      }
    }
    var f := IntField(i, w);
    if |d| <= w {
      assert f == Repeat(ZERO, w - |d|) + d;
    }
    assert forall k | 0 <= k < |f| :: f[k] != LF;
  }

  lemma ItemHeadHasNoLineEnd(it: Item)
    ensures LF !in ItemHead(it)
  {
    IntFieldHasNoLineEnd(it.recipientPrefix, 6);
    IntFieldHasNoLineEnd(it.recipientNum, 10);
    IntFieldHasNoLineEnd(it.amount, 15);
    IntFieldHasNoLineEnd(it.vs, 10);
    IntFieldHasNoLineEnd(it.recipientBank, 4);
    IntFieldHasNoLineEnd(it.ks, 4);
  }

  /** An item line is a single line when its message holds no line end. */
  lemma ItemLineIsOneLine(it: Item)
    requires LF !in it.message
    ensures CountLF(ItemLine(it)) == 1
  {
    var head := ItemHead(it);
    var sp := SsPart(it.ss);
    var m := MessagePart(it.message);
    ItemHeadHasNoLineEnd(it);
    if it.ss != 0 {
      IntFieldHasNoLineEnd(it.ss, 10);
    }
    MessagePartShape(it.message);
    if it.message != [] {
      assert LF !in it.message[..Min(|it.message|, MaxMessageLen)];
    }
    var body := head + sp + m;
    assert LF !in body;
    assert ItemLine(it) == body + [LF];
    NoLFCount(body);
    CountLFConcat(body, [LF]);
    assert CountLF([LF]) == 1 by {
      assert [LF][..0] == [];
    }
  }

  // ---------------------------------------------------------------------
  // Groups

  /** The sum of the items' amounts, accumulated in order. */
  function SumAmounts(items: seq<Item>): int {
    if items == [] then 0 else SumAmounts(items[..|items| - 1]) + items[|items| - 1].amount
  }

  /** The total of two runs of items is the sum of their totals. */
  lemma {:induction false} SumAmountsConcat(a: seq<Item>, b: seq<Item>)
    ensures SumAmounts(a + b) == SumAmounts(a) + SumAmounts(b)
  {
    if b != [] {
      assert (a + b)[..|a + b| - 1] == a + b[..|b| - 1];
      SumAmountsConcat(a, b[..|b| - 1]);
    } else {
      assert a + b == a;
    }
  }

  /** A payment group as a value: what Group.Write reads. */
  datatype GroupData = GroupData(payerPrefix: int, payerNum: int, dueDate: CalendarDate, items: seq<Item>)

  /** The 42-byte group header line, with the group total in it. */
  function GroupHead(payerPrefix: int, payerNum: int, total: int, dueDate: CalendarDate): bytes {
    GroupStart + IntField(payerPrefix, 6) + [MINUS] + IntField(payerNum, 10) + [SPACE]
    + IntField(total, 14) + [SPACE] + DateField(dueDate) + [LF]
  }

  /** The item lines, in order. */
  function ItemsBytes(items: seq<Item>): bytes {
    ConcatMap(items, ItemLine)
  }

  function GroupBytes(g: GroupData): (r: bytes)
    ensures |r| >= 46 && r[|r| - 1] == LF
  {
    GroupHead(g.payerPrefix, g.payerNum, SumAmounts(g.items), g.dueDate)
    + ItemsBytes(g.items) + GroupEnd + [LF]
  }

  lemma GroupHeadWritten(o: bytes, payerPrefix: int, payerNum: int, total: int, dueDate: CalendarDate)
    ensures o + StrField(GroupStart, 2) + IntField(payerPrefix, 6) + StrField([MINUS], 1)
      + IntField(payerNum, 10) + StrField([SPACE], 1) + IntField(total, 14) + StrField([SPACE], 1)
      + DateField(dueDate) + [LF]
      == o + GroupHead(payerPrefix, payerNum, total, dueDate)
  {
    ExactField(GroupStart);
    ExactField([MINUS]);
    ExactField([SPACE]);
    var x1 := GroupStart;
    var x2 := x1 + IntField(payerPrefix, 6);
    var x3 := x2 + [MINUS];
    var x4 := x3 + IntField(payerNum, 10);
    var x5 := x4 + [SPACE];
    var x6 := x5 + IntField(total, 14);
    var x7 := x6 + [SPACE];
    var x8 := x7 + DateField(dueDate);
    var x9 := x8 + [LF];
    AppendAssoc(o, x1, IntField(payerPrefix, 6));
    AppendAssoc(o, x2, [MINUS]);
    AppendAssoc(o, x3, IntField(payerNum, 10));
    AppendAssoc(o, x4, [SPACE]);
    AppendAssoc(o, x5, IntField(total, 14));
    AppendAssoc(o, x6, [SPACE]);
    AppendAssoc(o, x7, DateField(dueDate));
    AppendAssoc(o, x8, [LF]);
    assert x9 == GroupHead(payerPrefix, payerNum, total, dueDate);
  }

  lemma GroupBytesWritten(o: bytes, g: GroupData)
    ensures o + GroupHead(g.payerPrefix, g.payerNum, SumAmounts(g.items), g.dueDate)
      + ItemsBytes(g.items) + StrField(GroupEnd, 3) + [LF]
      == o + GroupBytes(g)
  {
    var h := GroupHead(g.payerPrefix, g.payerNum, SumAmounts(g.items), g.dueDate);
    var j := ItemsBytes(g.items);
    assert StrField(GroupEnd, 3) == GroupEnd by {
      assert Repeat(SPACE, 0) == [];
    }
    assert GroupBytes(g) == h + j + GroupEnd + [LF];
    AppendAssoc(o, h, j);
    AppendAssoc(o, h + j, GroupEnd);
    AppendAssoc(o, h + j + GroupEnd, [LF]);
  }

  lemma GroupHeadLength(payerPrefix: int, payerNum: int, total: int, dueDate: CalendarDate)
    ensures |GroupHead(payerPrefix, payerNum, total, dueDate)| == 42
  {
  }

  /** The record type and the payer account columns of the group header line. */
  lemma GroupHeadAccountColumns(payerPrefix: int, payerNum: int, total: int, dueDate: CalendarDate)
    ensures var h := GroupHead(payerPrefix, payerNum, total, dueDate);
      && |h| == 42
      && h[..2] == GroupStart
      && h[2..8] == IntField(payerPrefix, 6) && h[8] == MINUS
      && h[9..19] == IntField(payerNum, 10) && h[19] == SPACE
  {
    var h := GroupHead(payerPrefix, payerNum, total, dueDate);
    var x1 := GroupStart;
    var x2 := x1 + IntField(payerPrefix, 6);
    var x3 := x2 + [MINUS];
    var x4 := x3 + IntField(payerNum, 10);
    var x5 := x4 + [SPACE];
    var x6 := x5 + IntField(total, 14);
    var x7 := x6 + [SPACE];
    var x8 := x7 + DateField(dueDate);
    var x9 := x8 + [LF];
    assert h == x9 && h[..|h|] == h;
    PrefixStep(x8, [LF], h);
    PrefixStep(x7, DateField(dueDate), h);
    PrefixStep(x6, [SPACE], h);
    PrefixStep(x5, IntField(total, 14), h);
    PrefixStep(x4, [SPACE], h);
    PrefixStep(x3, IntField(payerNum, 10), h);
    PrefixStep(x2, [MINUS], h);
    PrefixStep(x1, IntField(payerPrefix, 6), h);
  }

  /** The total and due-date columns of the group header line. */
  lemma GroupHeadTotalColumns(payerPrefix: int, payerNum: int, total: int, dueDate: CalendarDate)
    ensures var h := GroupHead(payerPrefix, payerNum, total, dueDate);
      && |h| == 42
      && h[20..34] == IntField(total, 14) && h[34] == SPACE
      && h[35..41] == FormatDDMMYY(dueDate) && h[41] == LF
  {
    var h := GroupHead(payerPrefix, payerNum, total, dueDate);
    var x1 := GroupStart;
    var x2 := x1 + IntField(payerPrefix, 6);
    var x3 := x2 + [MINUS];
    var x4 := x3 + IntField(payerNum, 10);
    var x5 := x4 + [SPACE];
    var x6 := x5 + IntField(total, 14);
    var x7 := x6 + [SPACE];
    var x8 := x7 + DateField(dueDate);
    var x9 := x8 + [LF];
    assert h == x9 && h[..|h|] == h;
    PrefixStep(x8, [LF], h);
    PrefixStep(x7, DateField(dueDate), h);
    PrefixStep(x6, [SPACE], h);
    PrefixStep(x5, IntField(total, 14), h);
    DateFieldDigits(dueDate);
  }

  /** A group starts with its header line. */
  lemma GroupStartsWithHead(g: GroupData)
    ensures var b := GroupBytes(g);
      |b| >= 46 && b[..42] == GroupHead(g.payerPrefix, g.payerNum, SumAmounts(g.items), g.dueDate)
  {
    var head := GroupHead(g.payerPrefix, g.payerNum, SumAmounts(g.items), g.dueDate);
    var j := ItemsBytes(g.items);
    var b := GroupBytes(g);
    GroupHeadLength(g.payerPrefix, g.payerNum, SumAmounts(g.items), g.dueDate);
    assert b == head + j + GroupEnd + [LF] && b[..|b|] == b;
    PrefixStep(head + j + GroupEnd, [LF], b);
    PrefixStep(head + j, GroupEnd, b);
    PrefixStep(head, j, b);
  }

  /** A group: its header line, the item lines in insertion order, the closing line. */
  lemma GroupLayout(g: GroupData)
    ensures var b := GroupBytes(g);
      var j := ItemsBytes(g.items);
      && |b| == 42 + |j| + 4
      && b[..42] == GroupHead(g.payerPrefix, g.payerNum, SumAmounts(g.items), g.dueDate)
      && b[42..42 + |j|] == j
      && b[42 + |j|..] == GroupEnd + [LF]
  {
    var head := GroupHead(g.payerPrefix, g.payerNum, SumAmounts(g.items), g.dueDate);
    var j := ItemsBytes(g.items);
    GroupHeadLength(g.payerPrefix, g.payerNum, SumAmounts(g.items), g.dueDate);
    assert GroupBytes(g) == head + j + (GroupEnd + [LF]);
    AppendSplit(head + j, GroupEnd + [LF]);
    AppendSplit(head, j);
  }

  /** The header's total reads back as the sum of the amounts, and its date as the due date. */
  lemma GroupHeadReadBack(g: GroupData)
    requires 0 <= SumAmounts(g.items) < Pow10(14)
    ensures var b := GroupBytes(g);
      |b| >= 42 && DecodeInt(b[20..34]) == Ok(SumAmounts(g.items)) && DecodeDate(b[35..41]) == Ok(g.dueDate)
  {
    var b := GroupBytes(g);
    var total := SumAmounts(g.items);
    var h := GroupHead(g.payerPrefix, g.payerNum, total, g.dueDate);
    GroupStartsWithHead(g);
    GroupHeadTotalColumns(g.payerPrefix, g.payerNum, total, g.dueDate);
    IntFieldRoundTrip(total, 14);
    DecodeIntInPrefix(b, h, 20, 14, total);
    DateFieldRoundTrip(g.dueDate);
    PrefixSlice(b, h, 35, 6);
  }

  /** The group header line holds exactly one line end. */
  lemma GroupHeadIsOneLine(payerPrefix: int, payerNum: int, total: int, dueDate: CalendarDate)
    ensures CountLF(GroupHead(payerPrefix, payerNum, total, dueDate)) == 1
  {
    IntFieldHasNoLineEnd(payerPrefix, 6);
    IntFieldHasNoLineEnd(payerNum, 10);
    IntFieldHasNoLineEnd(total, 14);
    DateFieldDigits(dueDate);
    var d := FormatDDMMYY(dueDate);
    assert LF !in d by {
      assert forall k | 0 <= k < 6 :: IsDigit(d[k]);
    }
    var body := GroupStart + IntField(payerPrefix, 6) + [MINUS] + IntField(payerNum, 10) + [SPACE]
      + IntField(total, 14) + [SPACE] + DateField(dueDate);
    assert LF !in body;
    NoLFCount(body);
    CountLFConcat(body, [LF]);
  }

  /** A group is |items| + 2 lines when no message holds a line end. */
  lemma GroupLineCount(g: GroupData)
    requires forall i | 0 <= i < |g.items| :: LF !in g.items[i].message
    ensures CountLF(GroupBytes(g)) == |g.items| + 2
  {
    var head := GroupHead(g.payerPrefix, g.payerNum, SumAmounts(g.items), g.dueDate);
    var j := ItemsBytes(g.items);
    GroupHeadIsOneLine(g.payerPrefix, g.payerNum, SumAmounts(g.items), g.dueDate);
    ItemsBytesCount(g.items);
    NoLFCount(GroupEnd);
    CountLFConcat(head, j);
    CountLFConcat(head + j, GroupEnd);
    CountLFConcat(head + j + GroupEnd, [LF]);
  }

  lemma {:induction false} ItemsBytesCount(items: seq<Item>)
    requires forall i | 0 <= i < |items| :: LF !in items[i].message
    ensures CountLF(ItemsBytes(items)) == |items|
  {
    if items != [] {
      var init := items[..|items| - 1];
      ItemsBytesCount(init);
      ItemLineIsOneLine(items[|items| - 1]);
      CountLFConcat(ItemsBytes(init), ItemLine(items[|items| - 1]));
    }
  }

  /** A payment group: one payer account and due date, and its items. */
  class Group {
    var payerPrefix: int
    var payerNum: int
    var dueDate: CalendarDate
    var items: seq<Item>

    constructor (prefix: int, num: int, due: CalendarDate)
      ensures payerPrefix == prefix && payerNum == num && dueDate == due && items == []
    {
      payerPrefix := prefix;
      payerNum := num;
      dueDate := due;
      items := [];
    }

    function Data(): GroupData
      reads this
    {
      GroupData(payerPrefix, payerNum, dueDate, items)
    }

    /** Appends one item with the given fields and returns it. */
    method AddItem(recpAccPrefix: int, recpAccNum: int, recpBankCode: int, amount: int,
                   vs: int, ks: int, ss: int, msgForRecp: bytes) returns (it: Item)
      modifies this
      ensures it == Item(recpAccPrefix, recpAccNum, recpBankCode, amount, vs, ks, ss, msgForRecp)
      ensures items == old(items) + [it]
      ensures payerPrefix == old(payerPrefix) && payerNum == old(payerNum) && dueDate == old(dueDate)
      ensures SumAmounts(items) == SumAmounts(old(items)) + amount
    {
      it := Item(recpAccPrefix, recpAccNum, recpBankCode, amount, vs, ks, ss, msgForRecp);
      items := items + [it];
      assert items[..|items| - 1] == old(items);
    }

    /** AddItem with KS and SS both 0. */
    method AddItemSimple(recpAccPrefix: int, recpAccNum: int, recpBankCode: int, amount: int,
                         vs: int, msgForRecp: bytes) returns (it: Item)
      modifies this
      ensures it == Item(recpAccPrefix, recpAccNum, recpBankCode, amount, vs, 0, 0, msgForRecp)
      ensures items == old(items) + [it]
      ensures payerPrefix == old(payerPrefix) && payerNum == old(payerNum) && dueDate == old(dueDate)
    {
      it := AddItem(recpAccPrefix, recpAccNum, recpBankCode, amount, vs, 0, 0, msgForRecp);
    }

    /** The group total: the amounts of the items, added in order. */
    method TotalAmount() returns (total: int)
      ensures total == SumAmounts(items)
    {
      total := 0;
      for i := 0 to |items|
        invariant total == SumAmounts(items[..i])
      {
        assert items[..i + 1][..i] == items[..i];
        total := total + items[i].amount;
      }
      assert items[..|items|] == items;
    }

    /** Every item line, in insertion order. */
    method WriteItems(w: Writer)
      modifies w
      ensures w.out == old(w.out) + ItemsBytes(items)
    {
      for i := 0 to |items|
        invariant w.out == old(w.out) + ItemsBytes(items[..i])
      {
        ConcatMapSnoc(items, i, ItemLine);
        AppendAssoc(old(w.out), ItemsBytes(items[..i]), ItemLine(items[i]));
        items[i].Write(w);
      }
      assert items[..|items|] == items;
    }

    /** Group.Write: the header with the total, every item, the closing line. */
    method Write(w: Writer)
      modifies w
      ensures w.out == old(w.out) + GroupBytes(Data())
    {
      var total := TotalAmount();
      w.WriteStr(GroupStart, 2);
      w.WriteInt(payerPrefix, 6);
      w.WriteStr([MINUS], 1);
      w.WriteInt(payerNum, 10);
      w.WriteStr([SPACE], 1);
      w.WriteMonetaryAmount(total, 14);
      w.WriteStr([SPACE], 1);
      w.WriteTime(dueDate);
      w.WriteLineEnd();
      GroupHeadWritten(old(w.out), payerPrefix, payerNum, total, dueDate);
      WriteItems(w);
      w.WriteStr(GroupEnd, 3);
      w.WriteLineEnd();
      GroupBytesWritten(old(w.out), Data());
    }
  }

  // ---------------------------------------------------------------------
  // Orders

  /** The 59-byte UHL1 header line, with the client name already encoded. */
  function HeaderLine(creationDate: CalendarDate, encodedName: bytes, clientAccount: int): bytes {
    HeaderTag + DateField(creationDate) + StrField(encodedName, 20)
    + IntField(clientAccount, 10) + IntField(0, 3) + IntField(999, 3)
    + IntField(0, 6) + IntField(0, 6) + [LF]
  }

  /** The accounting-file line that opens the groups. */
  function AccountingHead(clientBank: int): bytes {
    AccountingStart + IntField(1501, 4) + [SPACE] + IntField(0, 6) + [SPACE]
    + IntField(clientBank, 4) + [LF]
  }

  /** The groups' bytes, in order. */
  function GroupsBytes(groups: seq<GroupData>): bytes {
    ConcatMap(groups, GroupBytes)
  }

  function AccountingBytes(clientBank: int, groups: seq<GroupData>): bytes {
    AccountingHead(clientBank) + GroupsBytes(groups) + AccountingEnd + [LF]
  }

  /** The whole order file, or the error met encoding the client name. */
  function OrderBytes(creationDate: CalendarDate, clientName: bytes, clientAccount: int,
                      clientBank: int, groups: seq<GroupData>): Result<bytes, Error>
  {
    match Windows1250.Encode(clientName)
    case None => Err(Context("client name", Encoding))
    case Some(encoded) => Ok(HeaderLine(creationDate, encoded, clientAccount) + AccountingBytes(clientBank, groups))
  }

  lemma HeaderLineWritten(o: bytes, creationDate: CalendarDate, encodedName: bytes, clientAccount: int)
    ensures o + StrField(HeaderTag, 4) + DateField(creationDate) + StrField(encodedName, 20)
      + IntField(clientAccount, 10) + IntField(0, 3) + IntField(999, 3)
      + IntField(0, 6) + IntField(0, 6) + [LF]
      == o + HeaderLine(creationDate, encodedName, clientAccount)
  {
    ExactField(HeaderTag);
    var x1 := HeaderTag;
    var x2 := x1 + DateField(creationDate);
    var x3 := x2 + StrField(encodedName, 20);
    var x4 := x3 + IntField(clientAccount, 10);
    var x5 := x4 + IntField(0, 3);
    var x6 := x5 + IntField(999, 3);
    var x7 := x6 + IntField(0, 6);
    var x8 := x7 + IntField(0, 6);
    var x9 := x8 + [LF];
    AppendAssoc(o, x1, DateField(creationDate));
    AppendAssoc(o, x2, StrField(encodedName, 20));
    AppendAssoc(o, x3, IntField(clientAccount, 10));
    AppendAssoc(o, x4, IntField(0, 3));
    AppendAssoc(o, x5, IntField(999, 3));
    AppendAssoc(o, x6, IntField(0, 6));
    AppendAssoc(o, x7, IntField(0, 6));
    AppendAssoc(o, x8, [LF]);
    assert x9 == HeaderLine(creationDate, encodedName, clientAccount);
  }

  lemma AccountingHeadWritten(o: bytes, clientBank: int)
    ensures o + StrField(AccountingStart, 2) + IntField(1501, 4) + StrField([SPACE], 1)
      + IntField(0, 6) + StrField([SPACE], 1) + IntField(clientBank, 4) + [LF]
      == o + AccountingHead(clientBank)
  {
    ExactField(AccountingStart);
    ExactField([SPACE]);
    var x1 := AccountingStart;
    var x2 := x1 + IntField(1501, 4);
    var x3 := x2 + [SPACE];
    var x4 := x3 + IntField(0, 6);
    var x5 := x4 + [SPACE];
    var x6 := x5 + IntField(clientBank, 4);
    var x7 := x6 + [LF];
    AppendAssoc(o, x1, IntField(1501, 4));
    AppendAssoc(o, x2, [SPACE]);
    AppendAssoc(o, x3, IntField(0, 6));
    AppendAssoc(o, x4, [SPACE]);
    AppendAssoc(o, x5, IntField(clientBank, 4));
    AppendAssoc(o, x6, [LF]);
    assert x7 == AccountingHead(clientBank);
  }

  lemma AccountingBytesWritten(o: bytes, clientBank: int, groups: seq<GroupData>)
    ensures o + AccountingHead(clientBank) + GroupsBytes(groups) + StrField(AccountingEnd, 3) + [LF]
      == o + AccountingBytes(clientBank, groups)
  {
    ExactField(AccountingEnd);
    var h := AccountingHead(clientBank);
    var j := GroupsBytes(groups);
    AppendAssoc(o, h, j);
    AppendAssoc(o, h + j, AccountingEnd);
    AppendAssoc(o, h + j + AccountingEnd, [LF]);
  }

  lemma HeaderLineLength(creationDate: CalendarDate, encodedName: bytes, clientAccount: int)
    ensures |HeaderLine(creationDate, encodedName, clientAccount)| == 59
  {
  }

  /** The fixed literals of the UHL1 line and where its variable fields go. */
  lemma HeaderLineColumns(creationDate: CalendarDate, encodedName: bytes, clientAccount: int)
    ensures var h := HeaderLine(creationDate, encodedName, clientAccount);
      && |h| == 59
      && h[..4] == HeaderTag
      && h[4..10] == FormatDDMMYY(creationDate)
      && h[10..30] == StrField(encodedName, 20)
      && h[30..40] == IntField(clientAccount, 10)
      && h[40..43] == Repeat(ZERO, 3) && h[43..46] == [ZERO + 9, ZERO + 9, ZERO + 9]
      && h[46..52] == Repeat(ZERO, 6) && h[52..58] == Repeat(ZERO, 6)
      && h[58] == LF
  {
    var h := HeaderLine(creationDate, encodedName, clientAccount);
    var x1 := HeaderTag;
    var x2 := x1 + DateField(creationDate);
    var x3 := x2 + StrField(encodedName, 20);
    var x4 := x3 + IntField(clientAccount, 10);
    var x5 := x4 + IntField(0, 3);
    var x6 := x5 + IntField(999, 3);
    var x7 := x6 + IntField(0, 6);
    var x8 := x7 + IntField(0, 6);
    assert h == x8 + [LF] && h[..|h|] == h;
    DateFieldDigits(creationDate);
    ConstantFields();
    PrefixStep(x8, [LF], h);
    PrefixStep(x7, IntField(0, 6), h);
    PrefixStep(x6, IntField(0, 6), h);
    PrefixStep(x5, IntField(999, 3), h);
    PrefixStep(x4, IntField(0, 3), h);
    PrefixStep(x3, IntField(clientAccount, 10), h);
    PrefixStep(x2, StrField(encodedName, 20), h);
    PrefixStep(x1, DateField(creationDate), h);
  }

  /** The accounting line is "1 1501 000000 ", the client's bank code and a line end. */
  lemma AccountingHeadColumns(clientBank: int)
    ensures var h := AccountingHead(clientBank);
      && |h| == 19
      && h[..14] == AccountingStart + [ZERO + 1, ZERO + 5, ZERO, ZERO + 1, SPACE] + Repeat(ZERO, 6) + [SPACE]
      && h[14..18] == IntField(clientBank, 4)
      && h[18] == LF
  {
    var h := AccountingHead(clientBank);
    var x1 := AccountingStart;
    var x5 := x1 + IntField(1501, 4) + [SPACE] + IntField(0, 6) + [SPACE];
    var x6 := x5 + IntField(clientBank, 4);
    assert h == x6 + [LF] && h[..|h|] == h;
    PrefixStep(x6, [LF], h);
    PrefixStep(x5, IntField(clientBank, 4), h);
    ConstantFields();
    AppendAssoc(x1, IntField(1501, 4), [SPACE]);
  }

  /** The accounting part: its opening line, the groups in insertion order, its closing line. */
  lemma AccountingLayout(clientBank: int, groups: seq<GroupData>)
    ensures var acc := AccountingBytes(clientBank, groups);
      var j := GroupsBytes(groups);
      && |acc| == 19 + |j| + 4
      && acc[..19] == AccountingHead(clientBank)
      && acc[19..19 + |j|] == j
      && acc[19 + |j|..] == AccountingEnd + [LF]
  {
    var a := AccountingHead(clientBank);
    var j := GroupsBytes(groups);
    AccountingHeadColumns(clientBank);
    assert AccountingBytes(clientBank, groups) == a + j + (AccountingEnd + [LF]);
    AppendSplit(a + j, AccountingEnd + [LF]);
    AppendSplit(a, j);
  }

  /**
   * The order file: the UHL1 line with the client name in Windows-1250, the
   * accounting line, the groups in insertion order, the closing line; it
   * fails exactly when the encoder refuses the client name.
   */
  lemma OrderLayout(creationDate: CalendarDate, clientName: bytes, clientAccount: int,
                    clientBank: int, groups: seq<GroupData>)
    ensures OrderBytes(creationDate, clientName, clientAccount, clientBank, groups).Err?
      <==> Windows1250.Encode(clientName).None?
    ensures OrderBytes(creationDate, clientName, clientAccount, clientBank, groups).Err? ==>
      OrderBytes(creationDate, clientName, clientAccount, clientBank, groups).error == Context("client name", Encoding)
    ensures Windows1250.Encode(clientName).Some? ==>
      var b := OrderBytes(creationDate, clientName, clientAccount, clientBank, groups).value;
      var j := GroupsBytes(groups);
      && |b| == 59 + 19 + |j| + 4
      && b[..59] == HeaderLine(creationDate, Windows1250.Encode(clientName).value, clientAccount)
      && b[59..78] == AccountingHead(clientBank)
      && b[78..78 + |j|] == j
      && b[78 + |j|..] == AccountingEnd + [LF]
  {
    if Windows1250.Encode(clientName).Some? {
      var h := HeaderLine(creationDate, Windows1250.Encode(clientName).value, clientAccount);
      var acc := AccountingBytes(clientBank, groups);
      var b := h + acc;
      var j := GroupsBytes(groups);
      assert OrderBytes(creationDate, clientName, clientAccount, clientBank, groups).value == b;
      HeaderLineLength(creationDate, Windows1250.Encode(clientName).value, clientAccount);
      AccountingLayout(clientBank, groups);
      AppendSplit(h, acc);
      SubSlice(b, 59, acc, 0, 19);
      SubSlice(b, 59, acc, 19, |j|);
      assert b[78 + |j|..] == acc[19 + |j|..];
    }
  }

  /**
   * The client name in the header reads back through ReadStrWindows1250
   * when its encoding fits the 20 columns and has no edge spaces.
   */
  lemma HeaderNameReadBack(creationDate: CalendarDate, clientName: bytes, clientAccount: int)
    requires Windows1250.Encode(clientName).Some? && |Windows1250.Encode(clientName).value| <= 20
    requires NoEdgeSpace(clientName)
    ensures DecodeStrWindows1250(HeaderLine(creationDate, Windows1250.Encode(clientName).value, clientAccount)[10..30])
      == Ok(clientName)
  {
    HeaderLineColumns(creationDate, Windows1250.Encode(clientName).value, clientAccount);
    StrFieldWindows1250RoundTrip(clientName, 20);
  }

  /** An ASCII client name is written as it is. */
  lemma AsciiClientName(creationDate: CalendarDate, clientName: bytes, clientAccount: int,
                        clientBank: int, groups: seq<GroupData>)
    requires Windows1250.IsAscii(clientName)
    ensures OrderBytes(creationDate, clientName, clientAccount, clientBank, groups)
      == Ok(HeaderLine(creationDate, clientName, clientAccount) + AccountingBytes(clientBank, groups))
  {
    Windows1250.EncodeAscii(clientName);
  }

  /** The values of a sequence of groups. */
  function GroupsData(gs: seq<Group>): (r: seq<GroupData>)
    reads gs
    ensures |r| == |gs| && forall i | 0 <= i < |gs| :: r[i] == gs[i].Data()
  {
    seq(|gs|, i reads gs requires 0 <= i < |gs| => gs[i].Data())
  }

  /** A payment order: the client, the creation date and the groups. */
  class Order {
    var creationDate: CalendarDate
    var clientName: bytes
    var clientAccount: int
    var clientBank: int
    var groups: seq<Group>

    constructor (created: CalendarDate, name: bytes, account: int, bank: int)
      ensures creationDate == created && clientName == name && clientAccount == account
      ensures clientBank == bank && groups == []
    {
      creationDate := created;
      clientName := name;
      clientAccount := account;
      clientBank := bank;
      groups := [];
    }

    /** Appends a new, empty group for the given payer and due date and returns it. */
    method AddGroup(payerAccountPrefix: int, payerAccountNum: int, dueDate: CalendarDate) returns (g: Group)
      modifies this
      ensures fresh(g)
      ensures g.payerPrefix == payerAccountPrefix && g.payerNum == payerAccountNum
      ensures g.dueDate == dueDate && g.items == []
      ensures groups == old(groups) + [g]
      ensures creationDate == old(creationDate) && clientName == old(clientName)
      ensures clientAccount == old(clientAccount) && clientBank == old(clientBank)
    {
      g := new Group(payerAccountPrefix, payerAccountNum, dueDate);
      groups := groups + [g];
    }

    /** Every group, in insertion order. */
    method WriteGroups(w: Writer)
      modifies w
      ensures w.out == old(w.out) + GroupsBytes(old(GroupsData(groups)))
    {
      ghost var data := GroupsData(groups);
      for i := 0 to |groups|
        invariant w.out == old(w.out) + GroupsBytes(data[..i])
      {
        ConcatMapSnoc(data, i, GroupBytes);
        AppendAssoc(old(w.out), GroupsBytes(data[..i]), GroupBytes(data[i]));
        groups[i].Write(w);
      }
      assert data[..|groups|] == data;
    }

    /** The accounting line that opens the accounting part. */
    method WriteAccountingHead(w: Writer)
      modifies w
      ensures w.out == old(w.out) + AccountingHead(clientBank)
    {
      w.WriteStr(AccountingStart, 2);
      w.WriteInt(1501, 4);
      w.WriteStr([SPACE], 1);
      w.WriteInt(0, 6);
      w.WriteStr([SPACE], 1);
      w.WriteInt(clientBank, 4);
      w.WriteLineEnd();
      AccountingHeadWritten(old(w.out), clientBank);
    }

    /** writeAccounting: the accounting line, every group, the closing line. */
    method WriteAccounting(w: Writer)
      modifies w
      ensures w.out == old(w.out) + AccountingBytes(clientBank, old(GroupsData(groups)))
    {
      ghost var o := w.out;
      ghost var data := GroupsData(groups);
      WriteAccountingHead(w);
      WriteGroups(w);
      w.WriteStr(AccountingEnd, 3);
      w.WriteLineEnd();
      AccountingBytesWritten(o, clientBank, data);
    }

    /**
     * The header line. A client name that cannot be encoded stops it after
     * the creation date.
     */
    method WriteHeader(w: Writer) returns (err: Option<Error>)
      modifies w
      ensures Windows1250.Encode(clientName).None? ==>
        err == Some(Context("client name", Encoding))
        && w.out == old(w.out) + HeaderTag + DateField(creationDate)
      ensures Windows1250.Encode(clientName).Some? ==>
        err == None && w.out == old(w.out) + HeaderLine(creationDate, Windows1250.Encode(clientName).value, clientAccount)
    {
      w.WriteStr(HeaderTag, 4);
      w.WriteTime(creationDate);
      ExactField(HeaderTag);
      var e := w.WriteStrWindows1250(clientName, 20);
      if e.Some? {
        return Some(Context("client name", e.value));
      }
      w.WriteInt(clientAccount, 10);
      w.WriteInt(0, 3);
      w.WriteInt(999, 3);
      w.WriteInt(0, 6);
      w.WriteInt(0, 6);
      w.WriteLineEnd();
      HeaderLineWritten(old(w.out), creationDate, Windows1250.Encode(clientName).value, clientAccount);
      return None;
    }

    /**
     * Order.Write: the header line, then the accounting part. A client name
     * that cannot be encoded stops the output after the creation date.
     */
    method Write(w: Writer) returns (err: Option<Error>)
      modifies w
      ensures var r := OrderBytes(creationDate, clientName, clientAccount, clientBank, old(GroupsData(groups)));
        && (r.Ok? ==> err == None && w.out == old(w.out) + r.value)
        && (r.Err? ==> err == Some(r.error) && w.out == old(w.out) + HeaderTag + DateField(creationDate))
    {
      ghost var data := GroupsData(groups);
      err := WriteHeader(w);
      if err.Some? {
        return;
      }
      assert GroupsData(groups) == data;
      WriteAccounting(w);
      AppendAssoc(old(w.out), HeaderLine(creationDate, Windows1250.Encode(clientName).value, clientAccount),
                  AccountingBytes(clientBank, data));
    }
  }
}
