/**
 Re-encoding of FlexBuffer values in the relay (`flexbuffer_util` of
 core/gsb-api/src/lib.rs): a recursive copy from a reader to a builder that keeps
 all open containers on one flat stack of cells.
 */
module FlexClone {
  import opened Common

  /** Element kinds of typed vectors. */
  datatype Elem = EInt | EUInt | EFloat | EKey | EString | EBool

  /** A value as the reader presents it; `Damaged` is a place whose bytes cannot be read. */
  datatype Flex =
    | Null
    | Int(i: int)
    | UInt(u: nat)
    | Float(f: real)
    | Bool(b: bool)
    | Key(k: string)
    | Str(s: string)
    | IndirectInt(i: int)
    | IndirectUInt(u: nat)
    | IndirectFloat(f: real)
    | Map(entries: seq<Entry>)
    | Vector(items: seq<Flex>)
    | TypedVector(elem: Elem, items: seq<Flex>)
    | Blob(bytes: seq<Byte>)
    | Damaged(tag: Type)

  datatype Entry = Entry(key: string, value: Flex)

  /** The reader's type tag; vectors of fixed size 2, 3 and 4 carry their element kind like any typed vector. */
  datatype Type =
    | TNull | TInt | TUInt | TFloat | TBool | TKey | TString
    | TIndirectInt | TIndirectUInt | TIndirectFloat
    | TMap | TVector | TTypedVector(elem: Elem) | TBlob

  function TypeOf(v: Flex): Type {
    match v
    case Null => TNull
    case Int(_) => TInt
    case UInt(_) => TUInt
    case Float(_) => TFloat
    case Bool(_) => TBool
    case Key(_) => TKey
    case Str(_) => TString
    case IndirectInt(_) => TIndirectInt
    case IndirectUInt(_) => TIndirectUInt
    case IndirectFloat(_) => TIndirectFloat
    case Map(_) => TMap
    case Vector(_) => TVector
    case TypedVector(elem, _) => TTypedVector(elem)
    case Blob(_) => TBlob
    case Damaged(tag) => tag
  }

  function ElemType(e: Elem): Type {
    match e
    case EInt => TInt
    case EUInt => TUInt
    case EFloat => TFloat
    case EKey => TKey
    case EString => TString
    case EBool => TBool
  }

  /** The entry a key lookup finds. */
  function Index(entries: seq<Entry>, key: string): (i: nat)
    requires exists j :: 0 <= j < |entries| && entries[j].key == key
    ensures i < |entries| && entries[i].key == key
    ensures forall j :: 0 <= j < i ==> entries[j].key != key
  {
    if entries[0].key == key then 0 else 1 + Index(entries[1..], key)
  }

  // ------------------------------------------------------------------------
  // What a value means, whatever its encoding
  // ------------------------------------------------------------------------

  datatype Meaning =
    | MNull
    | MInt(i: int)
    | MUInt(u: nat)
    | MFloat(f: real)
    | MBool(b: bool)
    | MText(s: string)
    | MBytes(bytes: seq<Byte>)
    | MList(items: seq<Meaning>)
    | MMap(fields: map<string, Meaning>)

  function Keys(entries: seq<Entry>): set<string> {
    set i | 0 <= i < |entries| :: entries[i].key
  }

  function Denote(v: Flex): Meaning {
    match v
    case Null => MNull
    case Int(i) => MInt(i)
    case UInt(u) => MUInt(u)
    case Float(f) => MFloat(f)
    case Bool(b) => MBool(b)
    case Key(k) => MText(k)
    case Str(s) => MText(s)
    case IndirectInt(i) => MInt(i)
    case IndirectUInt(u) => MUInt(u)
    case IndirectFloat(f) => MFloat(f)
    case Map(entries) => MMap(map k | k in Keys(entries) :: Denote(entries[Index(entries, k)].value))
    case Vector(items) => MList(seq(|items|, i requires 0 <= i < |items| => Denote(items[i])))
    case TypedVector(_, items) => MList(seq(|items|, i requires 0 <= i < |items| => Denote(items[i])))
    case Blob(bytes) => MBytes(bytes)
    case Damaged(_) => MNull
  }

  // ------------------------------------------------------------------------
  // What is pushed for a value
  // ------------------------------------------------------------------------

  /** What is pushed for a scalar read with type `t`; nothing where the reader fails. */
  function ReadScalar(v: Flex, t: Type): Option<Flex> {
    match t
    case TNull => Some(Null)
    case TInt => if v.Int? || v.IndirectInt? then Some(Int(v.i)) else None
    case TIndirectInt => if v.Int? || v.IndirectInt? then Some(Int(v.i)) else None
    case TUInt => if v.UInt? || v.IndirectUInt? then Some(UInt(v.u)) else None
    case TIndirectUInt => if v.UInt? || v.IndirectUInt? then Some(UInt(v.u)) else None
    case TFloat => if v.Float? || v.IndirectFloat? then Some(Float(v.f)) else None
    case TIndirectFloat => if v.Float? || v.IndirectFloat? then Some(Float(v.f)) else None
    case TBool => if v.Bool? then Some(Bool(v.b)) else None
    case TKey => if v.Key? then Some(Str(v.k)) else None
    case TString => if v.Str? then Some(Str(v.s)) else None
    case TBlob => if v.Blob? then Some(Blob(v.bytes)) else None
    case _ => None
  }

  predicate IsVector(v: Flex) {
    v.Vector? || v.TypedVector?
  }

  /** The value a map lookup finds for the key at position `i`. */
  function FieldAt(entries: seq<Entry>, i: nat): Flex
    requires i < |entries|
  {
    entries[Index(entries, entries[i].key)].value
  }

  /** Elements of a typed vector are read with its element kind, others with their own type. */
  function ItemType(t: Type, item: Flex): Type {
    if t.TTypedVector? then ElemType(t.elem) else TypeOf(item)
  }

  /** Reading `v` with type `t`, and everything below it, succeeds. */
  predicate Readable(v: Flex, t: Type)
    decreases v
  {
    match t
    case TMap =>
      v.Map? && forall i :: 0 <= i < |v.entries| ==> Readable(FieldAt(v.entries, i), TypeOf(FieldAt(v.entries, i)))
    case TVector =>
      IsVector(v) && forall i :: 0 <= i < |v.items| ==> Readable(v.items[i], ItemType(t, v.items[i]))
    case TTypedVector(_) =>
      IsVector(v) && forall i :: 0 <= i < |v.items| ==> Readable(v.items[i], ItemType(t, v.items[i]))
    case _ => ReadScalar(v, t).Some?
  }

  /** The value pushed: generic containers, direct numbers, strings for keys. */
  function Copy(v: Flex, t: Type): Flex
    requires Readable(v, t)
    decreases v
  {
    match t
    case TMap =>
      var es := v.entries;
      Map(seq(|es|, i requires 0 <= i < |es| => Entry(es[i].key, Copy(FieldAt(es, i), TypeOf(FieldAt(es, i))))))
    case TVector =>
      Vector(seq(|v.items|, i requires 0 <= i < |v.items| => Copy(v.items[i], ItemType(t, v.items[i]))))
    case TTypedVector(_) =>
      Vector(seq(|v.items|, i requires 0 <= i < |v.items| => Copy(v.items[i], ItemType(t, v.items[i]))))
    case _ => ReadScalar(v, t).value
  }

  // ------------------------------------------------------------------------
  // Which values can be copied
  // ------------------------------------------------------------------------

  /** An element of a typed vector that is of the vector's kind, held directly or indirectly. */
  predicate OfKind(e: Elem, v: Flex) {
    match e
    case EInt => v.Int? || v.IndirectInt?
    case EUInt => v.UInt? || v.IndirectUInt?
    case EFloat => v.Float? || v.IndirectFloat?
    case EKey => v.Key?
    case EString => v.Str?
    case EBool => v.Bool?
  }

  /**
   No place that is read is damaged, at any depth: in maps those that a lookup
   finds, in typed vectors only elements of the vector's kind.  A null has no bytes
   to be read.
   */
  predicate WellFormed(v: Flex) {
    match v
    case Damaged(tag) => tag.TNull?
    case Map(entries) => forall i :: 0 <= i < |entries| && FirstOfKey(entries, i) ==> WellFormed(entries[i].value)
    case Vector(items) => forall i :: 0 <= i < |items| ==> WellFormed(items[i])
    case TypedVector(e, items) => forall i :: 0 <= i < |items| ==> OfKind(e, items[i])
    case _ => true
  }

  /** No entry before it has the same key. */
  predicate FirstOfKey(entries: seq<Entry>, i: nat)
    requires i < |entries|
  {
    forall j :: 0 <= j < i ==> entries[j].key != entries[i].key
  }

  /** A lookup finds the first entry of a key. */
  lemma LookupFindsFirst(entries: seq<Entry>, i: nat)
    requires i < |entries|
    ensures var f := Index(entries, entries[i].key);
            FirstOfKey(entries, f) && FieldAt(entries, i) == entries[f].value && (FirstOfKey(entries, i) ==> f == i)
  {
  }

  lemma KindIsReadable(e: Elem, v: Flex)
    ensures Readable(v, ElemType(e)) <==> OfKind(e, v)
  {
  }

  /** Exactly the well-formed values can be read. */
  lemma {:induction false} ReadableIffWellFormed(v: Flex)
    ensures Readable(v, TypeOf(v)) <==> WellFormed(v)
    decreases v, 1
  {
    match v
    case Map(_) => MapReadable(v);
    case Vector(_) => VectorReadable(v);
    case TypedVector(_, _) => TypedReadable(v);
    case _ =>
  }

  lemma {:induction false} MapReadable(v: Flex)
    requires v.Map?
    ensures Readable(v, TMap) <==> WellFormed(v)
    decreases v, 0
  {
    var es := v.entries;
    forall i | 0 <= i < |es|
      ensures Readable(FieldAt(es, i), TypeOf(FieldAt(es, i))) <==> WellFormed(FieldAt(es, i))
    {
      ReadableIffWellFormed(FieldAt(es, i));
    }
    if Readable(v, TMap) {
      forall i | 0 <= i < |es| && FirstOfKey(es, i)
        ensures WellFormed(es[i].value)
      {
        LookupFindsFirst(es, i);
        assert Readable(FieldAt(es, i), TypeOf(FieldAt(es, i)));
      }
    }
    if WellFormed(v) {
      forall i | 0 <= i < |es|
        ensures Readable(FieldAt(es, i), TypeOf(FieldAt(es, i)))
      {
        LookupFindsFirst(es, i);
        assert WellFormed(es[Index(es, es[i].key)].value);
      }
    }
  }

  lemma {:induction false} VectorReadable(v: Flex)
    requires v.Vector?
    ensures Readable(v, TVector) <==> WellFormed(v)
    decreases v, 0
  {
    forall i | 0 <= i < |v.items|
      ensures Readable(v.items[i], ItemType(TVector, v.items[i])) <==> WellFormed(v.items[i])
    {
      ReadableIffWellFormed(v.items[i]);
    }
  }

  lemma TypedReadable(v: Flex)
    requires v.TypedVector?
    ensures Readable(v, TTypedVector(v.elem)) <==> WellFormed(v)
  {
    forall i | 0 <= i < |v.items|
      ensures Readable(v.items[i], ItemType(TTypedVector(v.elem), v.items[i])) <==> OfKind(v.elem, v.items[i])
    {
      KindIsReadable(v.elem, v.items[i]);
    }
  }

  predicate Container(t: Type) {
    t.TMap? || t.TVector? || t.TTypedVector?
  }

  lemma ScalarCopy(v: Flex, t: Type)
    requires !Container(t)
    ensures Readable(v, t) <==> ReadScalar(v, t).Some?
    ensures Readable(v, t) ==> Copy(v, t) == ReadScalar(v, t).value
  {
  }

  /** The type a value is copied with: its own tag, or the element kind of the vector around it. */
  predicate Suits(v: Flex, t: Type) {
    t == TypeOf(v) || exists e :: t == ElemType(e)
  }

  /** Copying keeps the meaning, at every depth and under every encoding. */
  lemma {:induction false} CopyKeepsMeaning(v: Flex, t: Type)
    requires Readable(v, t) && Suits(v, t)
    ensures Denote(Copy(v, t)) == Denote(v)
    decreases v, 1
  {
    if t.TMap? {
      MapKeepsMeaning(v);
    } else if Container(t) {
      ItemsKeepMeaning(v, t);
    } else {
      ScalarCopy(v, t);
      ScalarKeepsMeaning(v, t);
    }
  }

  lemma ScalarKeepsMeaning(v: Flex, t: Type)
    requires ReadScalar(v, t).Some? && Suits(v, t)
    ensures Denote(ReadScalar(v, t).value) == Denote(v)
  {
  }

  lemma {:induction false} MapKeepsMeaning(v: Flex)
    requires Readable(v, TMap)
    ensures Denote(Copy(v, TMap)) == Denote(v)
    decreases v, 0
  {
    var es, es' := v.entries, Copy(v, TMap).entries;
    assert forall i :: 0 <= i < |es| ==> es'[i].key == es[i].key;
    forall k | k in Keys(es)
      ensures k in Keys(es') && Denote(es'[Index(es', k)].value) == Denote(es[Index(es, k)].value)
    {
      SameIndex(es, es', k);
      var x := es[Index(es, k)].value;
      CopyKeepsMeaning(x, TypeOf(x));
    }
    SameKeys(es', es);
    SameFields(es', es);
  }

  lemma SameKeys(a: seq<Entry>, b: seq<Entry>)
    requires |a| == |b| && forall i :: 0 <= i < |a| ==> a[i].key == b[i].key
    ensures Keys(a) == Keys(b)
  {
    assert forall i :: 0 <= i < |a| ==> a[i].key in Keys(b);
    assert forall i :: 0 <= i < |b| ==> b[i].key in Keys(a);
  }

  lemma FieldsOf(entries: seq<Entry>)
    ensures var m := Denote(Map(entries)).fields;
            && m.Keys == Keys(entries)
            && forall k :: k in Keys(entries) ==> m[k] == Denote(entries[Index(entries, k)].value)
  {
  }

  lemma SameFields(a: seq<Entry>, b: seq<Entry>)
    requires Keys(a) == Keys(b)
    requires forall k :: k in Keys(b) ==> Denote(a[Index(a, k)].value) == Denote(b[Index(b, k)].value)
    ensures Denote(Map(a)) == Denote(Map(b))
  {
    FieldsOf(a);
    FieldsOf(b);
    var x, y := Denote(Map(a)).fields, Denote(Map(b)).fields;
    assert x == y;
  }

  lemma {:induction false} ItemsKeepMeaning(v: Flex, t: Type)
    requires Readable(v, t) && (t.TVector? || t.TTypedVector?)
    ensures Denote(Copy(v, t)) == Denote(v)
    decreases v, 0
  {
    var copies := Copy(v, t).items;
    forall i | 0 <= i < |v.items|
      ensures Denote(copies[i]) == Denote(v.items[i])
    {
      CopyKeepsMeaning(v.items[i], ItemType(t, v.items[i]));
    }
    SameItems(copies, v.items);
  }

  lemma SameItems(a: seq<Flex>, b: seq<Flex>)
    requires |a| == |b| && forall i :: 0 <= i < |a| ==> Denote(a[i]) == Denote(b[i])
    ensures Denote(Vector(a)) == Denote(Vector(b))
    ensures forall e :: Denote(TypedVector(e, b)) == Denote(Vector(b))
  {
  }

  lemma SameIndex(a: seq<Entry>, b: seq<Entry>, key: string)
    requires |a| == |b| && forall i :: 0 <= i < |a| ==> a[i].key == b[i].key
    requires key in Keys(a)
    ensures key in Keys(b) && Index(a, key) == Index(b, key)
  {
    var j :| 0 <= j < |a| && a[j].key == key;
    assert b[j].key == key;
  }

  /** Only what the builder writes: no indirect numbers, keys or typed vectors. */
  predicate Plain(v: Flex) {
    match v
    case Map(entries) => forall i :: 0 <= i < |entries| ==> Plain(entries[i].value)
    case Vector(items) => forall i :: 0 <= i < |items| ==> Plain(items[i])
    case Key(_) => false
    case IndirectInt(_) => false
    case IndirectUInt(_) => false
    case IndirectFloat(_) => false
    case TypedVector(_, _) => false
    case Damaged(_) => false
    case _ => true
  }

  /** The copy is in normal form. */
  lemma {:induction false} CopyIsPlain(v: Flex, t: Type)
    requires Readable(v, t)
    ensures Plain(Copy(v, t))
    decreases v
  {
    match t
    case TMap =>
      var es := v.entries;
      forall i | 0 <= i < |es|
        ensures Plain(Copy(v, t).entries[i].value)
      {
        CopyIsPlain(FieldAt(es, i), TypeOf(FieldAt(es, i)));
      }
    case TVector =>
      forall i | 0 <= i < |v.items|
        ensures Plain(Copy(v, t).items[i])
      {
        CopyIsPlain(v.items[i], ItemType(t, v.items[i]));
      }
    case TTypedVector(e) =>
      forall i | 0 <= i < |v.items|
        ensures Plain(Copy(v, t).items[i])
      {
        CopyIsPlain(v.items[i], ItemType(t, v.items[i]));
      }
    case _ =>
  }

  // ------------------------------------------------------------------------
  // The builder
  // ------------------------------------------------------------------------

  /** A cell of the builder's stack: a key waiting for its value, or a completed value. */
  datatype Cell = KeyCell(key: string) | Done(value: Flex)

  function KeyCells(key: Option<string>): seq<Cell> {
    if key.Some? then [KeyCell(key.value)] else []
  }

  /** The entries of an open map, as they lie on the stack. */
  function MapCells(entries: seq<Entry>): seq<Cell> {
    if entries == [] then []
    else
      var e := entries[|entries| - 1];
      MapCells(entries[..|entries| - 1]) + [KeyCell(e.key), Done(e.value)]
  }

  function VectorCells(items: seq<Flex>): (r: seq<Cell>)
    ensures |r| == |items|
  {
    seq(|items|, i requires 0 <= i < |items| => Done(items[i]))
  }

  /** The entries read back off the stack; a key without a value is dropped. */
  function EntriesOf(cells: seq<Cell>): seq<Entry> {
    if |cells| < 2 then []
    else
      var k, v := cells[|cells| - 2], cells[|cells| - 1];
      if k.KeyCell? && v.Done? then EntriesOf(cells[..|cells| - 2]) + [Entry(k.key, v.value)]
      else EntriesOf(cells[..|cells| - 1])
  }

  function ItemsOf(cells: seq<Cell>): seq<Flex> {
    if cells == [] then []
    else if cells[0].Done? then [cells[0].value] + ItemsOf(cells[1..])
    else ItemsOf(cells[1..])
  }

  lemma {:induction false} EntriesBack(entries: seq<Entry>)
    ensures EntriesOf(MapCells(entries)) == entries
  {
    if entries != [] {
      var init, e := entries[..|entries| - 1], entries[|entries| - 1];
      var cells := MapCells(entries);
      EntriesBack(init);
      assert cells[..|cells| - 2] == MapCells(init);
      assert entries == init + [e];
    }
  }

  lemma {:induction false} ItemsBack(items: seq<Flex>)
    ensures ItemsOf(VectorCells(items)) == items
  {
    if items != [] {
      ItemsBack(items[1..]);
      assert VectorCells(items)[1..] == VectorCells(items[1..]);
    }
  }

  class Builder {
    var cells: seq<Cell>

    constructor ()
      ensures cells == []
    {
      cells := [];
    }

    /** Pushes a value, into a map under a key or into a vector. */
    method Push(key: Option<string>, v: Flex)
      modifies this
      ensures cells == old(cells) + KeyCells(key) + [Done(v)]
    {
      if key.Some? {
        cells := cells + [KeyCell(key.value)];
      }
      cells := cells + [Done(v)];
    }

    /** Opens a container: it owns the cells from `start` on. */
    method Start(key: Option<string>) returns (start: nat)
      modifies this
      ensures cells == old(cells) + KeyCells(key) && start == |cells|
    {
      if key.Some? {
        cells := cells + [KeyCell(key.value)];
      }
      start := |cells|;
    }

    /** Closes a container, also when its builder is dropped on an error. */
    method End(start: nat, isMap: bool)
      requires start <= |cells|
      modifies this
      ensures var mine := old(cells)[start..];
              cells == old(cells)[..start] + [Done(if isMap then Map(EntriesOf(mine)) else Vector(ItemsOf(mine)))]
    {
      var mine := cells[start..];
      cells := cells[..start] + [Done(if isMap then Map(EntriesOf(mine)) else Vector(ItemsOf(mine)))];
    }
  }

  /**
   The stack was only added to, and on success by the key and exactly one
   completed value; the open containers below are untouched either way.
   */
  ghost predicate Pushed(before: seq<Cell>, after: seq<Cell>, key: Option<string>, v: Flex, t: Type, ok: bool) {
    && (ok <==> Readable(v, t))
    && before <= after
    && (ok ==> after == before + KeyCells(key) + [Done(Copy(v, t))])
  }

  /** Copies one value into the innermost open container. */
  method PushValue(b: Builder, v: Flex, t: Type, key: Option<string>) returns (ok: bool)
    modifies b
    ensures Pushed(old(b.cells), b.cells, key, v, t, ok)
    decreases v, 2
  {
    if t.TMap? {
      ok := CloneMap(b, v, key);
    } else if Container(t) {
      ok := CloneVec(b, v, t, key);
    } else {
      ScalarCopy(v, t);
      var scalar := ReadScalar(v, t);
      ok := scalar.Some?;
      if ok {
        b.Push(key, scalar.value);
      }
    }
  }

  /** The first `n` fields copied. */
  ghost predicate FieldsCopied(es: seq<Entry>, copied: seq<Entry>) {
    && |copied| <= |es|
    && forall j :: 0 <= j < |copied| ==>
         && Readable(FieldAt(es, j), TypeOf(FieldAt(es, j)))
         && copied[j] == Entry(es[j].key, Copy(FieldAt(es, j), TypeOf(FieldAt(es, j))))
  }

  lemma MapCellsSnoc(entries: seq<Entry>, e: Entry)
    ensures MapCells(entries + [e]) == MapCells(entries) + KeyCells(Some(e.key)) + [Done(e.value)]
  {
    assert (entries + [e])[..|entries|] == entries;
  }

  lemma Split(a: seq<Cell>, b: seq<Cell>)
    ensures (a + b)[..|a|] == a && (a + b)[|a|..] == b
  {
  }

  method CloneMap(b: Builder, v: Flex, key: Option<string>) returns (ok: bool)
    modifies b
    ensures Pushed(old(b.cells), b.cells, key, v, TMap, ok)
    decreases v, 1
  {
    var start := b.Start(key);
    ghost var base := b.cells;
    ok := v.Map?;
    if ok {
      ok := CopyFields(b, v);
      if ok {
        Split(base, MapCells(Copy(v, TMap).entries));
        EntriesBack(Copy(v, TMap).entries);
      }
    }
    b.End(start, true);
  }

  method CopyFields(b: Builder, v: Flex) returns (ok: bool)
    requires v.Map?
    modifies b
    ensures old(b.cells) <= b.cells && (ok <==> Readable(v, TMap))
    ensures ok ==> b.cells == old(b.cells) + MapCells(Copy(v, TMap).entries)
    decreases v, 0
  {
    var es := v.entries;
    ghost var base, copied: seq<Entry> := b.cells, [];
    for i := 0 to |es|
      invariant b.cells == base + MapCells(copied) && |copied| == i && FieldsCopied(es, copied)
    {
      var x := FieldAt(es, i);
      ok := PushValue(b, x, TypeOf(x), Some(es[i].key));
      if !ok {
        assert !Readable(FieldAt(es, i), TypeOf(FieldAt(es, i)));
        return;
      }
      FieldsSnoc(es, copied);
      MapCellsSnoc(copied, Entry(es[i].key, Copy(x, TypeOf(x))));
      CellsAssoc(base, MapCells(copied), KeyCells(Some(es[i].key)), [Done(Copy(x, TypeOf(x)))]);
      copied := copied + [Entry(es[i].key, Copy(x, TypeOf(x)))];
    }
    AllFieldsCopied(v, copied);
    ok := true;
  }

  lemma CellsAssoc(a: seq<Cell>, b: seq<Cell>, c: seq<Cell>, d: seq<Cell>)
    ensures a + b + c + d == a + (b + c + d)
  {
  }

  lemma FieldsSnoc(es: seq<Entry>, copied: seq<Entry>)
    requires FieldsCopied(es, copied) && |copied| < |es|
    requires Readable(FieldAt(es, |copied|), TypeOf(FieldAt(es, |copied|)))
    ensures var i := |copied|;
            FieldsCopied(es, copied + [Entry(es[i].key, Copy(FieldAt(es, i), TypeOf(FieldAt(es, i))))])
  {
  }

  lemma AllFieldsCopied(v: Flex, copied: seq<Entry>)
    requires v.Map? && FieldsCopied(v.entries, copied) && |copied| == |v.entries|
    ensures Readable(v, TMap) && Copy(v, TMap).entries == copied
  {
  }

  /** The first elements copied. */
  ghost predicate ItemsCopied(items: seq<Flex>, t: Type, copied: seq<Flex>) {
    && |copied| <= |items|
    && forall j :: 0 <= j < |copied| ==>
         && Readable(items[j], ItemType(t, items[j]))
         && copied[j] == Copy(items[j], ItemType(t, items[j]))
  }

  method CloneVec(b: Builder, v: Flex, t: Type, key: Option<string>) returns (ok: bool)
    requires t.TVector? || t.TTypedVector?
    modifies b
    ensures Pushed(old(b.cells), b.cells, key, v, t, ok)
    decreases v, 1
  {
    var start := b.Start(key);
    ghost var base := b.cells;
    ok := IsVector(v);
    if ok {
      ok := CopyItems(b, v, t);
      if ok {
        Split(base, VectorCells(Copy(v, t).items));
        ItemsBack(Copy(v, t).items);
      }
    }
    b.End(start, false);
  }

  method CopyItems(b: Builder, v: Flex, t: Type) returns (ok: bool)
    requires IsVector(v) && (t.TVector? || t.TTypedVector?)
    modifies b
    ensures old(b.cells) <= b.cells && (ok <==> Readable(v, t))
    ensures ok ==> b.cells == old(b.cells) + VectorCells(Copy(v, t).items)
    decreases v, 0
  {
    ghost var base, copied: seq<Flex> := b.cells, [];
    for i := 0 to |v.items|
      invariant b.cells == base + VectorCells(copied) && |copied| == i && ItemsCopied(v.items, t, copied)
    {
      var x := v.items[i];
      ok := PushValue(b, x, ItemType(t, x), None);
      if !ok {
        return;
      }
      ItemsSnoc(v.items, t, copied);
      VectorCellsSnoc(copied, Copy(x, ItemType(t, x)));
      AppendAssoc(base, VectorCells(copied), [Done(Copy(x, ItemType(t, x)))]);
      Alone(b.cells);
      copied := copied + [Copy(x, ItemType(t, x))];
    }
    AllItemsCopied(v, t, copied);
    ok := true;
  }

  lemma VectorCellsSnoc(items: seq<Flex>, y: Flex)
    ensures VectorCells(items + [y]) == VectorCells(items) + [Done(y)]
  {
  }

  lemma ItemsSnoc(items: seq<Flex>, t: Type, copied: seq<Flex>)
    requires ItemsCopied(items, t, copied) && |copied| < |items|
    requires Readable(items[|copied|], ItemType(t, items[|copied|]))
    ensures var x := items[|copied|];
            ItemsCopied(items, t, copied + [Copy(x, ItemType(t, x))])
  {
  }

  lemma AllItemsCopied(v: Flex, t: Type, copied: seq<Flex>)
    requires IsVector(v) && (t.TVector? || t.TTypedVector?)
    requires ItemsCopied(v.items, t, copied) && |copied| == |v.items|
    ensures Readable(v, t) && Copy(v, t).items == copied
  {
  }

  /**
   The message sent back on the bus: a map whose only field holds the copied
   payload, or nothing when the payload cannot be read.
   */
  method CloneField(payload: Flex, key: string) returns (r: Option<Flex>)
    ensures r.Some? <==> WellFormed(payload)
    ensures r.Some? ==> Plain(r.value) && Denote(r.value) == MMap(map[key := Denote(payload)])
  {
    ReadableIffWellFormed(payload);
    var b := new Builder();
    var start := b.Start(None);
    var ok := PushValue(b, payload, TypeOf(payload), Some(key));
    if !ok {
      return None;
    }
    var field := Entry(key, Copy(payload, TypeOf(payload)));
    assert b.cells[start..] == MapCells([field]) by {
      MapCellsSnoc([], field);
      assert [] + [field] == [field];
    }
    b.End(start, true);
    EntriesBack([field]);
    CopyIsPlain(payload, TypeOf(payload));
    CopyKeepsMeaning(payload, TypeOf(payload));
    SingleField(field);
    r := Some(b.cells[0].value);
  }

  lemma SingleField(field: Entry)
    ensures Denote(Map([field])) == MMap(map[field.key := Denote(field.value)])
  {
    var es := [field];
    assert Keys(es) == {field.key} by {
      assert es[0].key == field.key;
    }
    assert Index(es, field.key) == 0;
  }
}
