/** Printing documents without the attributes that have their default value, and reading them back (prosemirror.py). */
module Serialiser {
  import opened Prelude

  /** JSON values. A dictionary has its names in alphabetical order, since Python compares without regard to order. */
  datatype Value =
    | Null | Bool(b: bool) | Num(n: int) | Float(x: real) | Str(s: string)
    | List(items: seq<Value>) | Dict(names: seq<string>, values: seq<Value>)

  type Values = map<string, Value>

  /** What a number or truth value counts as. */
  function Amount(v: Value): Option<real> {
    match v
    case Bool(b) => Some(if b then 1.0 else 0.0)
    case Num(n) => Some(n as real)
    case Float(x) => Some(x)
    case _ => None
  }

  /** Python's `==`: `False` is `0`, `True` is `1` and `1` is `1.0`, inside lists and dictionaries as well. */
  predicate Equal(a: Value, b: Value)
    decreases a
  {
    match a
    case List(xs) => b.List? && EqualAll(xs, b.items)
    case Dict(names, xs) => b.Dict? && b.names == names && EqualAll(xs, b.values)
    case Null => b.Null?
    case Str(_) => b == a
    case _ => Amount(a) == Amount(b)
  }

  predicate EqualAll(a: seq<Value>, b: seq<Value>)
    decreases a
  {
    |a| == |b| && (a != [] ==> Equal(a[0], b[0]) && EqualAll(a[1..], b[1..]))
  }

  /** Attribute names with their defaults; `None` for an attribute that must be supplied. */
  type Spec = map<string, Option<Value>>

  datatype Schema = Schema(nodes: map<string, Spec>, marks: map<string, Spec>)

  datatype Mark = Mark(kind: string, attrs: Values)

  datatype Node = Node(kind: string, attrs: Values, content: seq<Node>, marks: seq<Mark>, text: Option<string>)

  /** Printed objects; a missing key is `None`. */
  datatype MarkObject = MarkObject(kind: string, attrs: Option<Values>)

  datatype Children = NoChildren | Children(objects: seq<Object>)

  datatype Object = Object(kind: string, attrs: Option<Values>, content: Children,
                           marks: Option<seq<MarkObject>>, text: Option<string>)

  // ---- Printing

  /** An attribute without a default counts as having the default `None`. */
  function Default(spec: Spec, name: string): Value
    requires name in spec
  {
    if spec[name].Some? then spec[name].value else Null
  }

  function Trimmed(spec: Spec, attrs: Values): Values
    requires attrs.Keys <= spec.Keys
  {
    map name | name in attrs && !Equal(Default(spec, name), attrs[name]) :: attrs[name]
  }

  function PrintAttrs(spec: Spec, attrs: Values): Option<Values>
    requires attrs.Keys <= spec.Keys
  {
    if Trimmed(spec, attrs) == map[] then None else Some(Trimmed(spec, attrs))
  }

  /** Only whether this is zero matters here, so a leaf counts the same as an empty block. */
  function Size(n: Node): nat
    decreases n
  {
    if n.text.Some? then |n.text.value| else if n.content == [] then 1 else 2 + SizeOfAll(n.content)
  }

  function SizeOfAll(ns: seq<Node>): nat
    decreases ns
  {
    if ns == [] then 0 else Size(ns[0]) + SizeOfAll(ns[1..])
  }

  predicate MarkFits(schema: Schema, m: Mark) {
    m.kind in schema.marks && m.attrs.Keys == schema.marks[m.kind].Keys
  }

  /** A node of the schema: all its attributes are there, and text nodes, and only they, carry text. */
  predicate Fits(schema: Schema, n: Node)
    decreases n
  {
    && n.kind in schema.nodes && n.attrs.Keys == schema.nodes[n.kind].Keys
    && (n.text.Some? <==> n.kind == "text")
    && (forall i :: 0 <= i < |n.marks| ==> MarkFits(schema, n.marks[i]))
    && AllFit(schema, n.content)
  }

  predicate AllFit(schema: Schema, ns: seq<Node>)
    decreases ns
  {
    ns != [] ==> Fits(schema, ns[0]) && AllFit(schema, ns[1..])
  }

  function PrintMark(schema: Schema, m: Mark): MarkObject
    requires MarkFits(schema, m)
  {
    MarkObject(m.kind, PrintAttrs(schema.marks[m.kind], m.attrs))
  }

  function PrintMarks(schema: Schema, ms: seq<Mark>): seq<MarkObject>
    requires forall i :: 0 <= i < |ms| ==> MarkFits(schema, ms[i])
  {
    seq(|ms|, i requires 0 <= i < |ms| => PrintMark(schema, ms[i]))
  }

  /** `to_content`: a document always prints its attributes. */
  function ToContent(schema: Schema, n: Node): Object
    requires Fits(schema, n)
    decreases n
  {
    Object(n.kind,
           if n.kind == "doc" then Some(n.attrs) else PrintAttrs(schema.nodes[n.kind], n.attrs),
           if SizeOfAll(n.content) != 0 then Children(AllToContent(schema, n.content)) else NoChildren,
           if n.marks != [] then Some(PrintMarks(schema, n.marks)) else None,
           if n.kind == "text" then n.text else None)
  }

  function AllToContent(schema: Schema, ns: seq<Node>): (r: seq<Object>)
    requires AllFit(schema, ns)
    ensures |r| == |ns|
    decreases ns
  {
    if ns == [] then [] else [ToContent(schema, ns[0])] + AllToContent(schema, ns[1..])
  }

  // ---- Reading: missing attributes take their defaults, or fail without one

  function Fill(spec: Spec, printed: Option<Values>): Option<Values> {
    var given := if printed.Some? then printed.value else map[];
    if forall name :: name in spec ==> name in given || spec[name].Some?
    then Some(map name | name in spec :: if name in given then given[name] else Default(spec, name))
    else None
  }

  function ReadMark(schema: Schema, m: MarkObject): Option<Mark> {
    if m.kind !in schema.marks then None
    else match Fill(schema.marks[m.kind], m.attrs)
      case None => None
      case Some(attrs) => Some(Mark(m.kind, attrs))
  }

  function ReadMarks(schema: Schema, ms: seq<MarkObject>): Option<seq<Mark>> {
    if forall i :: 0 <= i < |ms| ==> ReadMark(schema, ms[i]).Some?
    then Some(seq(|ms|, i requires 0 <= i < |ms| => ReadMark(schema, ms[i]).value))
    else None
  }

  function Read(schema: Schema, o: Object): Option<Node>
    decreases o
  {
    if o.kind !in schema.nodes then None
    else
      var attrs := Fill(schema.nodes[o.kind], o.attrs);
      var content := if o.content.Children? then ReadAll(schema, o.content.objects) else Some([]);
      var marks := if o.marks.Some? then ReadMarks(schema, o.marks.value) else Some([]);
      if attrs.None? || content.None? || marks.None? then None
      else Some(Node(o.kind, attrs.value, content.value, marks.value, o.text))
  }

  function ReadAll(schema: Schema, os: seq<Object>): Option<seq<Node>>
    decreases os
  {
    if os == [] then Some([])
    else match Read(schema, os[0])
      case None => None
      case Some(n) =>
        match ReadAll(schema, os[1..])
        case None => None
        case Some(ns) => Some([n] + ns)
  }

  // ---- The round trip

  /** What is left out has a default, and is that default to the letter. */
  predicate Restorable(spec: Spec, attrs: Values)
    requires attrs.Keys <= spec.Keys
  {
    forall name :: name in attrs && Equal(Default(spec, name), attrs[name]) ==> spec[name] == Some(attrs[name])
  }

  predicate Restores(schema: Schema, n: Node)
    requires Fits(schema, n)
    decreases n
  {
    && (n.kind == "doc" || Restorable(schema.nodes[n.kind], n.attrs))
    && (forall i :: 0 <= i < |n.marks| ==> Restorable(schema.marks[n.marks[i].kind], n.marks[i].attrs))
    && (n.content == [] || SizeOfAll(n.content) != 0)
    && AllRestore(schema, n.content)
  }

  predicate AllRestore(schema: Schema, ns: seq<Node>)
    requires AllFit(schema, ns)
    decreases ns
  {
    ns != [] ==> Restores(schema, ns[0]) && AllRestore(schema, ns[1..])
  }

  lemma AttrsRoundTripIff(spec: Spec, attrs: Values)
    requires attrs.Keys == spec.Keys
    ensures Fill(spec, PrintAttrs(spec, attrs)) == Some(attrs) <==> Restorable(spec, attrs)
  {
    var given := Trimmed(spec, attrs);
    if Restorable(spec, attrs) {
      forall name | name in spec ensures name in given || spec[name].Some? {
        if name !in given {
          assert Equal(Default(spec, name), attrs[name]);
        }
      }
      var filled := map name | name in spec :: if name in given then given[name] else Default(spec, name);
      assert filled == attrs;
    }
    if Fill(spec, PrintAttrs(spec, attrs)) == Some(attrs) {
      forall name | name in attrs && Equal(Default(spec, name), attrs[name])
        ensures spec[name] == Some(attrs[name])
      {
        assert name !in given;
        assert attrs[name] == Default(spec, name);
      }
    }
  }

  lemma FullAttrsRoundTrip(spec: Spec, attrs: Values)
    requires attrs.Keys == spec.Keys
    ensures Fill(spec, Some(attrs)) == Some(attrs)
  {
    assert (map name | name in spec :: if name in attrs then attrs[name] else Default(spec, name)) == attrs;
  }

  lemma MarksRoundTripIff(schema: Schema, ms: seq<Mark>)
    requires forall i :: 0 <= i < |ms| ==> MarkFits(schema, ms[i])
    ensures ReadMarks(schema, PrintMarks(schema, ms)) == Some(ms)
       <==> forall i :: 0 <= i < |ms| ==> Restorable(schema.marks[ms[i].kind], ms[i].attrs)
  {
    hide Fill, PrintAttrs, Restorable;
    var printed := PrintMarks(schema, ms);
    forall i | 0 <= i < |ms|
      ensures ReadMark(schema, printed[i]) == Some(ms[i]) <==> Restorable(schema.marks[ms[i].kind], ms[i].attrs)
    {
      AttrsRoundTripIff(schema.marks[ms[i].kind], ms[i].attrs);
    }
    if ReadMarks(schema, printed) == Some(ms) {
      forall i | 0 <= i < |ms| ensures Restorable(schema.marks[ms[i].kind], ms[i].attrs) {
        assert ms[i] == ReadMark(schema, printed[i]).value;
      }
    }
    if forall i :: 0 <= i < |ms| ==> Restorable(schema.marks[ms[i].kind], ms[i].attrs) {
      assert ReadMarks(schema, printed).Some?;
      assert ReadMarks(schema, printed).value == ms;
    }
  }

  /** Reading what was printed gives the node back exactly when nothing that was left out is lost. */
  lemma {:induction false} RoundTripIff(schema: Schema, n: Node)
    requires Fits(schema, n)
    ensures Read(schema, ToContent(schema, n)) == Some(n) <==> Restores(schema, n)
    decreases n
  {
    var spec := schema.nodes[n.kind];
    AttrsRoundTripIff(spec, n.attrs);
    FullAttrsRoundTrip(spec, n.attrs);
    MarksRoundTripIff(schema, n.marks);
    AllRoundTripIff(schema, n.content);
    hide Fill, PrintAttrs, Restorable, ReadMarks, PrintMarks;
  }

  lemma {:induction false} AllRoundTripIff(schema: Schema, ns: seq<Node>)
    requires AllFit(schema, ns)
    ensures ReadAll(schema, AllToContent(schema, ns)) == Some(ns) <==> AllRestore(schema, ns)
    decreases ns
  {
    if ns != [] {
      RoundTripIff(schema, ns[0]);
      AllRoundTripIff(schema, ns[1..]);
      var os := AllToContent(schema, ns);
      assert os[0] == ToContent(schema, ns[0]) && os[1..] == AllToContent(schema, ns[1..]);
      hide Read, ToContent, Restores;
      if ReadAll(schema, os) == Some(ns) {
        var head := Read(schema, os[0]).value;
        assert ns[0] == head && ns[1..] == ReadAll(schema, os[1..]).value;
      }
      assert [ns[0]] + ns[1..] == ns;
    }
  }

  /** `False` where the default is `0` is left out, and comes back as `0`. */
  lemma FalseComesBackAsZero(schema: Schema)
    requires schema == Schema(map["paragraph" := map["level" := Some(Num(0))]], map[])
    ensures var n := Node("paragraph", map["level" := Bool(false)], [], [], None);
      Fits(schema, n) && Read(schema, ToContent(schema, n)) == Some(n.(attrs := map["level" := Num(0)]))
  {
    var n := Node("paragraph", map["level" := Bool(false)], [], [], None);
    var spec := schema.nodes["paragraph"];
    assert Equal(Num(0), Bool(false));
    assert Trimmed(spec, n.attrs) == map[];
    assert ToContent(schema, n) == Object("paragraph", None, NoChildren, None, None);
    var filled := map name | name in spec :: Default(spec, name);
    assert Fill(spec, None).Some? && Fill(spec, None).value == filled == map["level" := Num(0)];
  }
}
