/** Values that flow between workflow steps, and the normalisation a checkpoint applies to them. */
module Values {

  datatype Option<+T> = None | Some(value: T)

  datatype Result<+T, +E> = Ok(value: T) | Err(error: E)

  /** A step value. `Model` stands for a Pydantic model instance; everything else is JSON-shaped. */
  datatype Value =
    | Null
    | Text(text: string)
    | Num(num: int)
    | Items(items: ValueList)
    | Dict(fields: Fields)
    | Model(class_: string, fields: Fields)

  datatype ValueList = Nil | Cons(head: Value, tail: ValueList)

  /** An insertion-ordered dictionary with string keys. */
  datatype Fields = NoFields | Field(key: string, value: Value, rest: Fields)

  /** Replaces every model instance, at any depth, by the plain dictionary of its fields. */
  function Normalize(v: Value): Value {
    match v
    case Items(items) => Items(NormalizeList(items))
    case Dict(fields) => Dict(NormalizeFields(fields))
    case Model(_, fields) => Dict(NormalizeFields(fields))
    case _ => v
  }

  function NormalizeList(l: ValueList): ValueList {
    match l
    case Nil => Nil
    case Cons(h, t) => Cons(Normalize(h), NormalizeList(t))
  }

  function NormalizeFields(f: Fields): Fields {
    match f
    case NoFields => NoFields
    case Field(k, v, rest) => Field(k, Normalize(v), NormalizeFields(rest))
  }

  /** A value that holds no model instance at any depth. */
  predicate Plain(v: Value) {
    match v
    case Items(items) => PlainList(items)
    case Dict(fields) => PlainFields(fields)
    case Model(_, _) => false
    case _ => true
  }

  predicate PlainList(l: ValueList) {
    l.Cons? ==> Plain(l.head) && PlainList(l.tail)
  }

  predicate PlainFields(f: Fields) {
    f.Field? ==> Plain(f.value) && PlainFields(f.rest)
  }

  /** Normalisation always lands on a plain value, and leaves a value alone exactly when it is plain already:
      a checkpoint hands back the value it was given if and only if no model instance is inside. */
  lemma {:induction false} NormalizeFixesExactlyPlain(v: Value)
    ensures Plain(Normalize(v))
    ensures Normalize(v) == v <==> Plain(v)
    ensures Normalize(Normalize(v)) == Normalize(v)
    decreases v, 1
  {
    NormalizeRange(v);
    NormalizeFixesPlain(v);
    NormalizeFixesPlain(Normalize(v));
  }

  lemma {:induction false} NormalizeRange(v: Value)
    ensures Plain(Normalize(v))
  {
    match v
    case Items(items) => NormalizeListRange(items);
    case Dict(fields) => NormalizeFieldsRange(fields);
    case Model(_, fields) => NormalizeFieldsRange(fields);
    case _ =>
  }

  lemma {:induction false} NormalizeListRange(l: ValueList)
    ensures PlainList(NormalizeList(l))
  {
    if l.Cons? {
      NormalizeRange(l.head);
      NormalizeListRange(l.tail);
    }
  }

  lemma {:induction false} NormalizeFieldsRange(f: Fields)
    ensures PlainFields(NormalizeFields(f))
  {
    if f.Field? {
      NormalizeRange(f.value);
      NormalizeFieldsRange(f.rest);
    }
  }

  lemma {:induction false} NormalizeFixesPlain(v: Value)
    ensures Plain(v) ==> Normalize(v) == v
  {
    match v
    case Items(items) => NormalizeListFixesPlain(items);
    case Dict(fields) => NormalizeFieldsFixesPlain(fields);
    case Model(_, _) =>
    case _ =>
  }

  lemma {:induction false} NormalizeListFixesPlain(l: ValueList)
    ensures PlainList(l) ==> NormalizeList(l) == l
  {
    if l.Cons? {
      NormalizeFixesPlain(l.head);
      NormalizeListFixesPlain(l.tail);
    }
  }

  lemma {:induction false} NormalizeFieldsFixesPlain(f: Fields)
    ensures PlainFields(f) ==> NormalizeFields(f) == f
  {
    if f.Field? {
      NormalizeFixesPlain(f.value);
      NormalizeFieldsFixesPlain(f.rest);
    }
  }
  /******* What a checkpoint keeps *******/

  /** One step into a value: a key of a dictionary or of an instance, or a place in a list. */
  datatype Index = Key(key: string) | Place(i: nat)

  function FieldOf(fs: Fields, key: string): Option<Value> {
    match fs
    case NoFields => None
    case Field(k, v, rest) => if k == key then Some(v) else FieldOf(rest, key)
  }

  function ItemOf(l: ValueList, i: nat): Option<Value> {
    match l
    case Nil => None
    case Cons(head, tail) => if i == 0 then Some(head) else ItemOf(tail, i - 1)
  }

  function Inside(v: Value, at: Index): Option<Value> {
    match at
    case Key(key) => if v.Dict? || v.Model? then FieldOf(v.fields, key) else None
    case Place(i) => if v.Items? then ItemOf(v.items, i) else None
  }

  /** What stands at the end of a path. */
  function Reached(v: Value, path: seq<Index>): Option<Value>
    decreases path
  {
    if path == [] then Some(v) else
    match Inside(v, path[0])
    case None => None
    case Some(x) => Reached(x, path[1..])
  }

  lemma {:induction false} FieldStays(fs: Fields, key: string)
    ensures FieldOf(NormalizeFields(fs), key) ==
              if FieldOf(fs, key).None? then None else Some(Normalize(FieldOf(fs, key).value))
  {
    if fs.Field? {
      FieldStays(fs.rest, key);
    }
  }

  lemma {:induction false} ItemStays(l: ValueList, i: nat)
    ensures ItemOf(NormalizeList(l), i) ==
              if ItemOf(l, i).None? then None else Some(Normalize(ItemOf(l, i).value))
  {
    if l.Cons? && i > 0 {
      ItemStays(l.tail, i - 1);
    }
  }

  /** A checkpoint loses nothing but the classes of instances: a path leads somewhere after it exactly if it did before,
      to the same text, number or null, to a list where a list was, and to a dictionary where one or an instance was. */
  lemma {:induction false} NormalizeKeepsPaths(v: Value, path: seq<Index>)
    ensures Reached(Normalize(v), path).None? <==> Reached(v, path).None?
    ensures Reached(v, path).Some? ==>
              var x, y := Reached(v, path).value, Reached(Normalize(v), path).value;
              && (x.Null? || x.Text? || x.Num? ==> y == x) && (x.Items? <==> y.Items?)
              && (x.Dict? || x.Model? <==> y.Dict?)
    decreases path
  {
    if path != [] {
      match path[0] {
        case Key(key) =>
          if v.Dict? || v.Model? {
            FieldStays(v.fields, key);
          }
        case Place(i) =>
          if v.Items? {
            ItemStays(v.items, i);
          }
      }
      if Inside(v, path[0]).Some? {
        NormalizeKeepsPaths(Inside(v, path[0]).value, path[1..]);
      }
    }
  }
}
