/** The generated C++ messages of the example schema, statement by statement: Store advances a
    pointer, Load checks what is left before every read and appends to its list. */
module Data {
  import opened Bytes
  import Idl
  import opened IdlLoad

  const ITEM_DATA: Idl.Type := Idl.Message(Idl.Nothing,
    Idl.Field("item_id", Idl.Text, Idl.Field("item_type", Idl.Enum(0), Idl.Field("item_seq", Idl.Primitive(Idl.UInt32), Idl.End))))

  const USER_DATA: Idl.Type := Idl.Message(Idl.Nothing,
    Idl.Field("user_id", Idl.Text, Idl.Field("user_seq", Idl.Primitive(Idl.UInt32), Idl.Field("items", Idl.List(ITEM_DATA), Idl.End))))

  datatype ItemData = ItemData(itemId: seq<Byte>, itemType: nat, itemSeq: nat)

  const LIMIT: nat := 0x1_0000_0000

  predicate Fits(i: ItemData) {
    |i.itemId| < LIMIT && i.itemType < LIMIT && i.itemSeq < LIMIT
  }

  function ItemValue(i: ItemData): Idl.Value {
    Idl.Record(Idl.Absent, [Idl.Str(i.itemId), Idl.Num(i.itemType), Idl.Num(i.itemSeq)])
  }

  function TextBytes(t: seq<Byte>): seq<Byte> {
    LE(|t|, 4) + t
  }

  function ItemBytes(i: ItemData): seq<Byte> {
    TextBytes(i.itemId) + (LE(i.itemType, 4) + LE(i.itemSeq, 4))
  }

  function ItemsBytes(items: seq<ItemData>): seq<Byte> {
    if items == [] then [] else ItemBytes(items[0]) + ItemsBytes(items[1..])
  }

  function ItemValues(items: seq<ItemData>): seq<Idl.Value> {
    if items == [] then [] else [ItemValue(items[0])] + ItemValues(items[1..])
  }

  function UserBytes(userId: seq<Byte>, userSeq: nat, items: seq<ItemData>): seq<Byte> {
    TextBytes(userId) + (LE(userSeq, 4) + (LE(|items|, 4) + ItemsBytes(items)))
  }

  function UserValue(userId: seq<Byte>, userSeq: nat, items: seq<ItemData>): Idl.Value {
    Idl.Record(Idl.Absent, [Idl.Str(userId), Idl.Num(userSeq), Idl.Items(ItemValues(items))])
  }

  lemma ThreeFields(f: string, a: Idl.Type, g: string, b: Idl.Type, h: string, c: Idl.Type, x: Idl.Value, y: Idl.Value, z: Idl.Value)
    ensures
      Idl.Encode(Idl.Message(Idl.Nothing, Idl.Field(f, a, Idl.Field(g, b, Idl.Field(h, c, Idl.End)))), Idl.Record(Idl.Absent, [x, y, z])) ==
        Idl.Encode(a, x) + (Idl.Encode(b, y) + Idl.Encode(c, z))
  {
    hide Idl.Encode, Idl.EncodeFields;
    MessageEncoded(Idl.Field(f, a, Idl.Field(g, b, Idl.Field(h, c, Idl.End))), [x, y, z]);
    FieldEncoded(f, a, Idl.Field(g, b, Idl.Field(h, c, Idl.End)), x, [y, z]);
    FieldEncoded(g, b, Idl.Field(h, c, Idl.End), y, [z]);
    FieldEncoded(h, c, Idl.End, z, []);
    NoFields();
    assert [x] + [y, z] == [x, y, z] && [y] + [z] == [y, z] && [z] + [] == [z];
    assert Idl.Encode(c, z) + [] == Idl.Encode(c, z);
  }

  lemma MessageEncoded(fs: Idl.Fields, vs: seq<Idl.Value>)
    ensures Idl.Encode(Idl.Message(Idl.Nothing, fs), Idl.Record(Idl.Absent, vs)) == Idl.EncodeFields(fs, vs)
  {
    hide Idl.EncodeFields;
    assert Idl.Encode(Idl.Nothing, Idl.Absent) == [];
    assert [] + Idl.EncodeFields(fs, vs) == Idl.EncodeFields(fs, vs);
  }

  lemma FieldEncoded(f: string, t: Idl.Type, rest: Idl.Fields, v: Idl.Value, vs: seq<Idl.Value>)
    ensures Idl.EncodeFields(Idl.Field(f, t, rest), [v] + vs) == Idl.Encode(t, v) + Idl.EncodeFields(rest, vs)
  {
    hide Idl.Encode;
    assert ([v] + vs)[1..] == vs;
  }

  lemma NoFields()
    ensures Idl.EncodeFields(Idl.End, []) == []
  {}

  /** The bytes are those of the wire format. */
  lemma ItemEncoded(i: ItemData)
    ensures Idl.Encode(ITEM_DATA, ItemValue(i)) == ItemBytes(i)
  {
    ThreeFields("item_id", Idl.Text, "item_type", Idl.Enum(0), "item_seq", Idl.Primitive(Idl.UInt32),
      Idl.Str(i.itemId), Idl.Num(i.itemType), Idl.Num(i.itemSeq));
  }

  lemma {:induction false} ItemsEncoded(items: seq<ItemData>)
    ensures Idl.EncodeItems(ITEM_DATA, ItemValues(items)) == ItemsBytes(items) && |ItemValues(items)| == |items|
  {
    hide ItemBytes, ItemValue, Idl.Encode;
    if items != [] {
      ItemEncoded(items[0]);
      ItemsEncoded(items[1..]);
      assert ItemValues(items)[1..] == ItemValues(items[1..]);
    }
  }

  lemma UserEncoded(userId: seq<Byte>, userSeq: nat, items: seq<ItemData>)
    ensures Idl.Encode(USER_DATA, UserValue(userId, userSeq, items)) == UserBytes(userId, userSeq, items)
  {
    hide ItemsBytes, ItemValues, Idl.EncodeItems;
    ItemsEncoded(items);
    ThreeFields("user_id", Idl.Text, "user_seq", Idl.Primitive(Idl.UInt32), "items", Idl.List(ITEM_DATA),
      Idl.Str(userId), Idl.Num(userSeq), Idl.Items(ItemValues(items)));
  }

  // ---------------------------------------------------------------- reading

  /** The pointer into the buffer, as an offset, and the size_t that counts what is left. */
  class Input {
    const buf: seq<Byte>
    var pos: nat
    var nSize: nat

    constructor (buf: seq<Byte>)
      ensures Valid() && this.buf == buf && pos == 0
    {
      this.buf := buf;
      pos := 0;
      nSize := |buf|;
    }

    ghost predicate Valid()
      reads this
    {
      pos + nSize == |buf|
    }

    /** A checked read of a number of w bytes. */
    method Number(w: nat) returns (ok: bool, n: nat)
      requires Valid()
      modifies this
      ensures Valid() && (ok <==> w <= old(nSize))
      ensures ok ==> pos == old(pos) + w && At(buf, old(pos), LE(n, w)) && n < Pow256(w)
      ensures !ok ==> pos == old(pos)
    {
      ok, n := false, 0;
      if w > nSize {
        return;
      }
      LEofUnLE(buf[pos..pos + w]);
      n := UnLE(buf[pos..pos + w]);
      pos, nSize := pos + w, nSize - w;
      ok := true;
    }

    /** A length, checked against what is left, and that many bytes. */
    method Text() returns (ok: bool, t: seq<Byte>)
      requires Valid()
      modifies this
      ensures Valid()
      ensures ok ==> pos == old(pos) + 4 + |t| && At(buf, old(pos), TextBytes(t)) && |t| < LIMIT
      ensures !ok ==> forall s :: At(buf, old(pos), TextBytes(s)) ==> |s| >= LIMIT
    {
      PowersOf256();
      ghost var start := pos;
      var length;
      t := [];
      ok, length := Number(4);
      if !ok {
        return;
      }
      if nSize < length {
        forall s | At(buf, start, TextBytes(s))
          ensures |s| >= LIMIT
        {
          AtSplit(buf, start, LE(|s|, 4), s);
          SameNumber(buf, start, |s|, length);
        }
        return false, [];
      }
      t := buf[pos..pos + length];
      pos, nSize := pos + length, nSize - length;
      assert buf[start..start + 4 + length] == buf[start..start + 4] + t;
    }
  }

  /** Two numbers that fit four bytes and stand at the same place are the same. */
  lemma SameNumber(buf: seq<Byte>, pos: nat, a: nat, b: nat)
    requires At(buf, pos, LE(a, 4)) && At(buf, pos, LE(b, 4)) && b < Pow256(4)
    ensures a < LIMIT ==> a == b
  {
    PowersOf256();
    UnLEofLE(a, 4);
    LERoundTrip(b, 4);
    if a < LIMIT {
      LERoundTrip(a, 4);
    }
  }

  lemma SameText(buf: seq<Byte>, pos: nat, a: seq<Byte>, b: seq<Byte>)
    requires At(buf, pos, TextBytes(a)) && At(buf, pos, TextBytes(b)) && |a| < LIMIT && |b| < LIMIT
    ensures a == b
  {
    hide LE;
    AtSplit(buf, pos, LE(|a|, 4), a);
    AtSplit(buf, pos, LE(|b|, 4), b);
    assert |b| < Pow256(4) by { PowersOf256(); }
    SameNumber(buf, pos, |a|, |b|);
  }

  /** The parts of an item that stands at pos. */
  lemma ItemParts(buf: seq<Byte>, pos: nat, i: ItemData)
    ensures var p := pos + 4 + |i.itemId|;
      At(buf, pos, ItemBytes(i)) <==>
        At(buf, pos, TextBytes(i.itemId)) && At(buf, p, LE(i.itemType, 4)) && At(buf, p + 4, LE(i.itemSeq, 4))
    ensures |ItemBytes(i)| == |i.itemId| + 12
  {
    hide LE;
    AtJoin(buf, pos, TextBytes(i.itemId), LE(i.itemType, 4) + LE(i.itemSeq, 4));
    AtJoin(buf, pos + 4 + |i.itemId|, LE(i.itemType, 4), LE(i.itemSeq, 4));
  }

  lemma AtJoin(buf: seq<Byte>, pos: nat, a: seq<Byte>, b: seq<Byte>)
    ensures At(buf, pos, a + b) <==> At(buf, pos, a) && At(buf, pos + |a|, b)
  {
    if At(buf, pos, a + b) {
      AtSplit(buf, pos, a, b);
    }
  }

  /** No two items stand at the same place. */
  lemma SameItem(buf: seq<Byte>, pos: nat, i: ItemData, j: ItemData)
    requires Fits(i) && Fits(j) && At(buf, pos, ItemBytes(i)) && At(buf, pos, ItemBytes(j))
    ensures i == j
  {
    hide LE, TextBytes, ItemBytes, At;
    ItemParts(buf, pos, i);
    ItemParts(buf, pos, j);
    SameText(buf, pos, i.itemId, j.itemId);
    var p := pos + 4 + |i.itemId|;
    PowersOf256();
    SameNumber(buf, p, i.itemType, j.itemType);
    SameNumber(buf, p + 4, i.itemSeq, j.itemSeq);
  }

  /** ItemData::Load: true exactly when an item stands at the pointer, and then that item. */
  method LoadItem(r: Input) returns (ok: bool, item: ItemData)
    requires r.Valid()
    modifies r
    ensures r.Valid()
    ensures ok ==> Fits(item) && At(r.buf, old(r.pos), ItemBytes(item)) && r.pos == old(r.pos) + |ItemBytes(item)|
    ensures !ok ==> forall j :: Fits(j) ==> !At(r.buf, old(r.pos), ItemBytes(j))
  {
    hide LE, TextBytes, ItemBytes;
    PowersOf256();
    ghost var start := r.pos;
    item := ItemData([], 0, 0);
    var id, kind, seqNo;
    ok, id := r.Text();
    if !ok {
      forall j | Fits(j) ensures !At(r.buf, start, ItemBytes(j)) { ItemParts(r.buf, start, j); }
      return;
    }
    ghost var p := r.pos;
    ok, kind := r.Number(4);
    if !ok {
      forall j | Fits(j) ensures !At(r.buf, start, ItemBytes(j)) { TooShort(r.buf, start, j, id, p); }
      return;
    }
    ok, seqNo := r.Number(4);
    if !ok {
      forall j | Fits(j) ensures !At(r.buf, start, ItemBytes(j)) { TooShort(r.buf, start, j, id, p + 4); }
      return;
    }
    item := ItemData(id, kind, seqNo);
    ItemParts(r.buf, start, item);
  }

  lemma TooShort(buf: seq<Byte>, start: nat, j: ItemData, id: seq<Byte>, p: nat)
    requires Fits(j) && At(buf, start, TextBytes(id)) && |id| < LIMIT && p + 4 > |buf|
    requires p == start + 4 + |id| || p == start + 8 + |id|
    ensures !At(buf, start, ItemBytes(j))
  {
    hide LE, TextBytes, ItemBytes;
    ItemParts(buf, start, j);
    if At(buf, start, ItemBytes(j)) {
      SameText(buf, start, id, j.itemId);
    }
  }

  // ---------------------------------------------------------------- lists of items

  predicate AllFit(items: seq<ItemData>) {
    forall i :: i in items ==> Fits(i)
  }

  /** What was loaded so far is how any list that stands here begins; the rest of that list
      stands behind it. */
  lemma {:induction false} PrefixForced(buf: seq<Byte>, pos: nat, loaded: seq<ItemData>, all: seq<ItemData>)
    requires AllFit(loaded) && AllFit(all) && |loaded| <= |all|
    requires At(buf, pos, ItemsBytes(loaded)) && At(buf, pos, ItemsBytes(all))
    ensures all[..|loaded|] == loaded && At(buf, pos + |ItemsBytes(loaded)|, ItemsBytes(all[|loaded|..]))
    decreases |loaded|
  {
    hide ItemBytes, Fits, At;
    if loaded == [] {
      assert all[0..] == all;
    } else {
      assert loaded[0] in loaded && all[0] in all;
      AtSplit(buf, pos, ItemBytes(loaded[0]), ItemsBytes(loaded[1..]));
      AtSplit(buf, pos, ItemBytes(all[0]), ItemsBytes(all[1..]));
      SameItem(buf, pos, loaded[0], all[0]);
      PrefixForced(buf, pos + |ItemBytes(loaded[0])|, loaded[1..], all[1..]);
      assert all[1..][|loaded| - 1..] == all[|loaded|..];
    }
  }

  lemma {:induction false} OneMoreItem(buf: seq<Byte>, pos: nat, items: seq<ItemData>, i: ItemData)
    requires At(buf, pos, ItemsBytes(items)) && At(buf, pos + |ItemsBytes(items)|, ItemBytes(i))
    ensures At(buf, pos, ItemsBytes(items + [i])) && |ItemsBytes(items + [i])| == |ItemsBytes(items)| + |ItemBytes(i)|
    decreases |items|
  {
    hide ItemBytes, At;
    if items == [] {
      assert [i][1..] == [] && items + [i] == [i] && ItemBytes(i) + [] == ItemBytes(i);
    } else {
      AtSplit(buf, pos, ItemBytes(items[0]), ItemsBytes(items[1..]));
      OneMoreItem(buf, pos + |ItemBytes(items[0])|, items[1..], i);
      assert (items + [i])[1..] == items[1..] + [i];
      AtJoin(buf, pos, ItemBytes(items[0]), ItemsBytes(items[1..] + [i]));
    }
  }

  /** The loop over a counted list: true exactly when that many items stand at the pointer. */
  method ReadItemList(r: Input, length: nat) returns (ok: bool, items: seq<ItemData>)
    requires r.Valid()
    modifies r
    ensures r.Valid()
    ensures ok ==> |items| == length && AllFit(items) && At(r.buf, old(r.pos), ItemsBytes(items))
    ensures ok ==> r.pos == old(r.pos) + |ItemsBytes(items)|
    ensures !ok ==> forall all :: AllFit(all) && |all| == length ==> !At(r.buf, old(r.pos), ItemsBytes(all))
  {
    hide ItemBytes, Fits;
    ghost var start := r.pos;
    items := [];
    ok := true;
    var i := 0;
    while i < length
      invariant r.Valid() && ok && i == |items| <= length && AllFit(items)
      invariant At(r.buf, start, ItemsBytes(items)) && r.pos == start + |ItemsBytes(items)|
    {
      var val;
      ok, val := LoadItem(r);
      if !ok {
        forall all | AllFit(all) && |all| == length
          ensures !At(r.buf, start, ItemsBytes(all))
        {
          NextMissing(r.buf, start, items, all);
        }
        return;
      }
      OneMoreItem(r.buf, start, items, val);
      items := items + [val];
      i := i + 1;
    }
  }

  lemma NextMissing(buf: seq<Byte>, start: nat, items: seq<ItemData>, all: seq<ItemData>)
    requires AllFit(items) && AllFit(all) && |items| < |all| && At(buf, start, ItemsBytes(items))
    requires forall j :: Fits(j) ==> !At(buf, start + |ItemsBytes(items)|, ItemBytes(j))
    ensures !At(buf, start, ItemsBytes(all))
  {
    hide ItemBytes, Fits, At;
    var rest, next := all[|items|..], all[|items|];
    assert next in all && rest[0] == next;
    if At(buf, start, ItemsBytes(all)) {
      PrefixForced(buf, start, items, all);
      AtSplit(buf, start + |ItemsBytes(items)|, ItemBytes(rest[0]), ItemsBytes(rest[1..]));
    }
  }

  // ---------------------------------------------------------------- writing

  /** s with these bytes in place from pos on. */
  function Patched(s: seq<Byte>, pos: nat, bytes: seq<Byte>): (r: seq<Byte>)
    requires pos + |bytes| <= |s|
    ensures |r| == |s|
  {
    s[..pos] + bytes + s[pos + |bytes|..]
  }

  lemma PatchedTwice(s: seq<Byte>, pos: nat, a: seq<Byte>, b: seq<Byte>)
    requires pos + |a| + |b| <= |s|
    ensures Patched(Patched(s, pos, a), pos + |a|, b) == Patched(s, pos, a + b)
  {}

  /** memcpy to the pointer, and the pointer moved on. */
  method Put(buf: array<Byte>, pos: nat, bytes: seq<Byte>) returns (next: nat)
    requires pos + |bytes| <= buf.Length
    modifies buf
    ensures next == pos + |bytes| && buf[..] == Patched(old(buf[..]), pos, bytes)
  {
    forall k | 0 <= k < |bytes| {
      buf[pos + k] := bytes[k];
    }
    next := pos + |bytes|;
  }

  method StoreItem(buf: array<Byte>, pos: nat, i: ItemData) returns (next: nat)
    requires pos + |ItemBytes(i)| <= buf.Length
    modifies buf
    ensures next == pos + |ItemBytes(i)| && buf[..] == Patched(old(buf[..]), pos, ItemBytes(i))
  {
    hide LE, Patched;
    ghost var was := buf[..];
    var idLength, kind, seqNo := LE(|i.itemId|, 4), LE(i.itemType, 4), LE(i.itemSeq, 4);
    next := Put(buf, pos, idLength);
    next := Put(buf, next, i.itemId);
    PatchedTwice(was, pos, idLength, i.itemId);
    next := Put(buf, next, kind);
    PatchedTwice(was, pos, idLength + i.itemId, kind);
    next := Put(buf, next, seqNo);
    PatchedTwice(was, pos, idLength + i.itemId + kind, seqNo);
    assert idLength + i.itemId + kind + seqNo == ItemBytes(i);
  }

  class UserData {
    var userId: seq<Byte>
    var userSeq: nat
    var items: seq<ItemData>

    constructor ()
      ensures userId == [] && userSeq == 0 && items == []
    {
      userId, userSeq, items := [], 0, [];
    }

    /** The length of what Store writes. */
    method Size() returns (nSize: nat)
      ensures nSize == |UserBytes(userId, userSeq, items)|
    {
      hide ItemBytes;
      nSize := 4 + |userId| + 4 + 4;
      assert items[0..] == items;
      var k := 0;
      while k < |items|
        invariant k <= |items|
        invariant nSize + |ItemsBytes(items[k..])| == |UserBytes(userId, userSeq, items)|
      {
        assert items[k..][1..] == items[k + 1..];
        ItemSize(items[k]);
        nSize := nSize + (4 + |items[k].itemId| + 4 + 4);
        k := k + 1;
      }
    }

    /** The pointer form writes without a check: the caller provides the room. */
    method Store(buf: array<Byte>, pos: nat) returns (next: nat)
      requires pos + |UserBytes(userId, userSeq, items)| <= buf.Length
      modifies buf
      ensures next == pos + |UserBytes(userId, userSeq, items)|
      ensures buf[..] == Patched(old(buf[..]), pos, UserBytes(userId, userSeq, items))
    {
      hide LE, ItemBytes, Patched;
      ghost var was, all := buf[..], UserBytes(userId, userSeq, items);
      var idLength, number, count := LE(|userId|, 4), LE(userSeq, 4), LE(|items|, 4);
      next := Put(buf, pos, idLength);
      next := Put(buf, next, userId);
      PatchedTwice(was, pos, idLength, userId);
      next := Put(buf, next, number);
      PatchedTwice(was, pos, idLength + userId, number);
      next := Put(buf, next, count);
      PatchedTwice(was, pos, idLength + userId + number, count);
      ghost var done := idLength + userId + number + count;
      assert items[0..] == items && done + ItemsBytes(items) == all;
      var k := 0;
      while k < |items|
        invariant k <= |items| && next == pos + |done| && done + ItemsBytes(items[k..]) == all
        invariant buf[..] == Patched(was, pos, done)
      {
        assert items[k..][1..] == items[k + 1..];
        ghost var rest := ItemsBytes(items[k + 1..]);
        assert done + (ItemBytes(items[k]) + rest) == (done + ItemBytes(items[k])) + rest;
        next := StoreItem(buf, next, items[k]);
        PatchedTwice(was, pos, done, ItemBytes(items[k]));
        done := done + ItemBytes(items[k]);
        k := k + 1;
      }
      assert done + [] == done;
    }

    /** The vector form grows the vector to Size first, so the writes stay inside. */
    method StoreVector(vector: array<Byte>) returns (buf: array<Byte>)
      modifies vector
      ensures buf == vector || fresh(buf)
      ensures var all := UserBytes(userId, userSeq, items);
        |all| <= buf.Length && buf[..|all|] == all && (vector.Length >= |all| ==> buf == vector)
    {
      hide UserBytes;
      var nSize := Size();
      buf := vector;
      if nSize > buf.Length {
        buf := new Byte[nSize](i requires 0 <= i < nSize reads vector => if i < vector.Length then vector[i] else 0);
      }
      var next := Store(buf, 0);
    }

    /** Load: true exactly when a user stands at the pointer; its items are appended to those
        the object already has. */
    method Load(r: Input) returns (ok: bool, ghost loaded: seq<ItemData>)
      requires r.Valid()
      modifies this, r
      ensures r.Valid()
      ensures ok ==>
        && |userId| < LIMIT && userSeq < LIMIT && |loaded| < LIMIT && AllFit(loaded)
        && items == old(items) + loaded
        && At(r.buf, old(r.pos), UserBytes(userId, userSeq, loaded))
        && r.pos == old(r.pos) + |UserBytes(userId, userSeq, loaded)|
      ensures !ok ==> forall id, n: nat, list :: |id| < LIMIT && n < LIMIT && |list| < LIMIT && AllFit(list) ==>
        !At(r.buf, old(r.pos), UserBytes(id, n, list))
    {
      hide LE, TextBytes, ItemsBytes, UserBytes, AllFit;
      PowersOf256();
      ghost var start := r.pos;
      loaded := [];
      var id, n, length, list;
      ok, id := r.Text();
      if !ok {
        forall id', n': nat, list' | |id'| < LIMIT && n' < LIMIT && |list'| < LIMIT && AllFit(list')
          ensures !At(r.buf, start, UserBytes(id', n', list'))
        {
          UserParts(r.buf, start, id', n', list');
        }
        return;
      }
      userId := id;
      ok, n := r.Number(4);
      if !ok {
        NoUser(r.buf, start, id, r.pos);
        return;
      }
      userSeq := n;
      ok, length := r.Number(4);
      if !ok {
        NoUser(r.buf, start, id, r.pos);
        return;
      }
      ghost var at := r.pos;
      ok, list := ReadItemList(r, length);
      if !ok {
        NoItems(r.buf, start, id, length);
        return;
      }
      items := items + list;
      loaded := list;
      UserParts(r.buf, start, id, n, list);
    }
  }

  lemma ItemSize(i: ItemData)
    ensures |ItemBytes(i)| == 4 + |i.itemId| + 4 + 4
  {}

  lemma UserParts(buf: seq<Byte>, pos: nat, id: seq<Byte>, n: nat, list: seq<ItemData>)
    ensures var p := pos + 4 + |id|;
      At(buf, pos, UserBytes(id, n, list)) <==>
        && At(buf, pos, TextBytes(id)) && At(buf, p, LE(n, 4)) && At(buf, p + 4, LE(|list|, 4))
        && At(buf, p + 8, ItemsBytes(list))
    ensures |UserBytes(id, n, list)| == |id| + 12 + |ItemsBytes(list)|
  {
    hide LE, ItemsBytes, At;
    var p := pos + 4 + |id|;
    AtJoin(buf, pos, TextBytes(id), LE(n, 4) + (LE(|list|, 4) + ItemsBytes(list)));
    AtJoin(buf, p, LE(n, 4), LE(|list|, 4) + ItemsBytes(list));
    AtJoin(buf, p + 4, LE(|list|, 4), ItemsBytes(list));
  }

  lemma NoUser(buf: seq<Byte>, start: nat, id: seq<Byte>, p: nat)
    requires At(buf, start, TextBytes(id)) && |id| < LIMIT && p + 4 > |buf|
    requires p == start + 4 + |id| || p == start + 8 + |id|
    ensures forall id', n': nat, list' :: |id'| < LIMIT && n' < LIMIT && |list'| < LIMIT && AllFit(list') ==>
      !At(buf, start, UserBytes(id', n', list'))
  {
    hide LE, TextBytes, UserBytes, ItemsBytes, AllFit;
    forall id', n': nat, list' | |id'| < LIMIT && n' < LIMIT && |list'| < LIMIT && AllFit(list')
      ensures !At(buf, start, UserBytes(id', n', list'))
    {
      UserParts(buf, start, id', n', list');
      if At(buf, start, UserBytes(id', n', list')) {
        SameText(buf, start, id, id');
      }
    }
  }

  lemma NoItems(buf: seq<Byte>, start: nat, id: seq<Byte>, length: nat)
    requires At(buf, start, TextBytes(id)) && |id| < LIMIT
    requires At(buf, start + 8 + |id|, LE(length, 4)) && length < LIMIT
    requires forall all :: AllFit(all) && |all| == length ==> !At(buf, start + 12 + |id|, ItemsBytes(all))
    ensures forall id', n': nat, list' :: |id'| < LIMIT && n' < LIMIT && |list'| < LIMIT && AllFit(list') ==>
      !At(buf, start, UserBytes(id', n', list'))
  {
    hide LE, TextBytes, UserBytes, ItemsBytes, AllFit, At;
    PowersOf256();
    forall id', n': nat, list' | |id'| < LIMIT && n' < LIMIT && |list'| < LIMIT && AllFit(list')
      ensures !At(buf, start, UserBytes(id', n', list'))
    {
      UserParts(buf, start, id', n', list');
      if At(buf, start, UserBytes(id', n', list')) {
        SameText(buf, start, id, id');
        SameNumber(buf, start + 8 + |id|, |list'|, length);
      }
    }
  }
}
