/** Stored document trees as the migrations see them: dictionaries whose keys may be absent. */
module Trees {
  import opened Prelude
  import opened Decimals

  /** A JSON scalar; `Nil` is null. */
  datatype Val = Nil | Flag(b: bool) | Str(s: string) | Num(text: string)

  /** A list of nodes under a key that may be missing. */
  datatype Kids = Absent | Kids(nodes: seq<Node>)

  datatype Attrs = Attrs(id: Option<string>, caption: Option<Val>, category: Option<Val>, figureCategory: Option<Val>,
                         image: Option<Val>, equation: Option<Val>, footnote: Kids, initial: Kids,
                         rest: map<string, Val>)

  /** `contents` is the key under which a revision keeps its document. */
  datatype Node = Node(kind: Option<string>, text: Option<string>, marks: string, attrs: Option<Attrs>, content: Kids,
                       contents: Option<Node>)

  const NO_ATTRS := Attrs(None, None, None, None, None, None, Absent, Absent, map[])

  function Bare(kind: string): Node {
    Node(Some(kind), None, "", None, Absent, None)
  }

  function Inner(kind: string, nodes: seq<Node>): Node {
    Bare(kind).(content := Kids(nodes))
  }

  function AttrsOf(n: Node): Attrs {
    if n.attrs.Some? then n.attrs.value else NO_ATTRS
  }

  // ---- Identifiers: a letter and the counter, padded with zeros to eight digits

  function Zeros(n: nat): string {
    seq(n, _ => '0')
  }

  function Padded(k: nat): string {
    var d := Digits(k);
    if |d| < 8 then Zeros(8 - |d|) + d else d
  }

  lemma {:induction false} NumberOfZeros(n: nat, d: string)
    ensures Number(Zeros(n) + d) == Number(d)
    decreases |d|, n
  {
    var s := Zeros(n) + d;
    if d != "" {
      assert s[..|s| - 1] == Zeros(n) + d[..|d| - 1];
      NumberOfZeros(n, d[..|d| - 1]);
    } else if n > 0 {
      assert s[..|s| - 1] == Zeros(n - 1) + d;
      NumberOfZeros(n - 1, d);
    }
  }

  /** The padded format loses nothing, however large the counter grows. */
  lemma PaddedIsInjective(j: nat, k: nat)
    requires Padded(j) == Padded(k)
    ensures j == k
  {
    NumberOfDigits(j);
    NumberOfDigits(k);
    NumberOfZeros(if |Digits(j)| < 8 then 8 - |Digits(j)| else 0, Digits(j));
    NumberOfZeros(if |Digits(k)| < 8 then 8 - |Digits(k)| else 0, Digits(k));
  }
}
