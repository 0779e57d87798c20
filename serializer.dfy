/**
 What `iCalComponent::toString` produces, as a function of a component
 tree: `BEGIN:` and the type, a CRLF and `KEY:value` for each upper-case
 key in array order, a CRLF and the child's text for each child in order,
 then a CRLF and `END:` and the type. Values go out verbatim (no escaping,
 no folding) and nothing follows the last `END:` line.
 */
module Serializer {
  import opened Text
  import opened PhpArray

  /** The state of a component and, recursively, of its children. */
  datatype Node = Node(props: Props, children: seq<Node>)

  /** `$this->props['type']`; a missing key reads as null, which prints as "". */
  function TypeOf(p: Props): string {
    ValueAt(p, "type")
  }

  /** The line of key `k`: the key, a colon, the value, verbatim. */
  function PropLine(p: Props, k: string): string {
    k + ":" + ValueAt(p, k)
  }

  /** What the property loop of `toString` appends for key `k`. */
  function KeyText(p: Props, k: string): string {
    if IsUpper(k) then "\r\n" + PropLine(p, k) else ""
  }

  /** What the property loop appends for the keys `ks`, in that order. */
  function PropLines(p: Props, ks: seq<string>): string {
    if ks == [] then "" else PropLines(p, ks[..|ks| - 1]) + KeyText(p, ks[|ks| - 1])
  }

  function Render(n: Node): string
    decreases n, 1
  {
    "BEGIN:" + TypeOf(n.props) + PropLines(n.props, n.props.keys) + ChildBlocks(n.children) + "\r\nEND:" + TypeOf(n.props)
  }

  function ChildBlocks(cs: seq<Node>): string
    decreases cs, 0
  {
    if cs == [] then "" else ChildBlocks(cs[..|cs| - 1]) + "\r\n" + Render(cs[|cs| - 1])
  }

  /** One more key, after any prefix: what each turn of the property loop adds. */
  lemma PropLinesStep(head: string, p: Props, ks: seq<string>, i: nat)
    requires i < |ks|
    ensures head + PropLines(p, ks[..i + 1]) == head + PropLines(p, ks[..i]) + KeyText(p, ks[i])
  {
    assert ks[..i + 1][..i] == ks[..i];
    assert head + PropLines(p, ks[..i]) + KeyText(p, ks[i]) == head + (PropLines(p, ks[..i]) + KeyText(p, ks[i]));
  }

  /** One more child, after any prefix: what each turn of the child loop adds. */
  lemma ChildBlocksStep(head: string, ts: seq<Node>, j: nat)
    requires j < |ts|
    ensures head + ChildBlocks(ts[..j + 1]) == head + ChildBlocks(ts[..j]) + "\r\n" + Render(ts[j])
  {
    var blocks := ChildBlocks(ts[..j]);
    assert ts[..j + 1][..j] == ts[..j];
    assert head + (blocks + "\r\n" + Render(ts[j])) == head + blocks + "\r\n" + Render(ts[j]);
  }

  // A reference definition of the same text, line by line.

  /** The property lines of a node: one per upper-case key, in array order. */
  function PropLineSeq(p: Props, ks: seq<string>): seq<string> {
    if ks == [] then []
    else PropLineSeq(p, ks[..|ks| - 1]) + (if IsUpper(ks[|ks| - 1]) then [PropLine(p, ks[|ks| - 1])] else [])
  }

  function Lines(n: Node): seq<string>
    decreases n, 1
  {
    ["BEGIN:" + TypeOf(n.props)] + PropLineSeq(n.props, n.props.keys) + ChildLines(n.children) + ["END:" + TypeOf(n.props)]
  }

  function ChildLines(cs: seq<Node>): seq<string>
    decreases cs, 0
  {
    if cs == [] then [] else ChildLines(cs[..|cs| - 1]) + Lines(cs[|cs| - 1])
  }

  /** Each line preceded by a CRLF. */
  function Crlfs(ls: seq<string>): string {
    if ls == [] then "" else Crlfs(ls[..|ls| - 1]) + "\r\n" + ls[|ls| - 1]
  }

  /** Lines separated by CRLF, with no CRLF after the last one. */
  function JoinCrlf(ls: seq<string>): string {
    if ls == [] then "" else ls[0] + Crlfs(ls[1..])
  }

  lemma {:induction false} CrlfsConcat(a: seq<string>, b: seq<string>)
    ensures Crlfs(a + b) == Crlfs(a) + Crlfs(b)
  {
    if b == [] {
      assert a + b == a;
    } else {
      assert (a + b)[..|a + b| - 1] == a + b[..|b| - 1];
      CrlfsConcat(a, b[..|b| - 1]);
    }
  }

  lemma {:induction false} CrlfsNonEmpty(ls: seq<string>)
    requires ls != []
    ensures Crlfs(ls) == "\r\n" + JoinCrlf(ls)
  {
    assert ls == [ls[0]] + ls[1..];
    CrlfsConcat([ls[0]], ls[1..]);
    CrlfsSingle(ls[0]);
  }

  lemma {:induction false} CrlfsSingle(l: string)
    ensures Crlfs([l]) == "\r\n" + l
  {
    assert [l][..0] == [];
  }

  lemma {:induction false} PropLinesAsLines(p: Props, ks: seq<string>)
    ensures PropLines(p, ks) == Crlfs(PropLineSeq(p, ks))
  {
    if ks != [] {
      var init, k := ks[..|ks| - 1], ks[|ks| - 1];
      PropLinesAsLines(p, init);
      var extra := if IsUpper(k) then [PropLine(p, k)] else [];
      CrlfsConcat(PropLineSeq(p, init), extra);
      if IsUpper(k) {
        assert extra[..0] == [];
      }
    }
  }

  /**
   The text of a component is exactly its lines joined by CRLF: the
   `BEGIN:` line, its property lines, the lines of each child in order,
   the `END:` line, and no trailing CRLF.
   */
  lemma {:induction false} RenderAsLines(n: Node)
    ensures Render(n) == JoinCrlf(Lines(n))
    decreases n, 1
  {
    PropLinesAsLines(n.props, n.props.keys);
    ChildBlocksAsLines(n.children);
    JoinFrame("BEGIN:" + TypeOf(n.props), PropLineSeq(n.props, n.props.keys), ChildLines(n.children), "END:" + TypeOf(n.props));
  }

  lemma {:induction false} JoinFrame(b: string, ps: seq<string>, cs: seq<string>, e: string)
    ensures JoinCrlf([b] + ps + cs + [e]) == b + Crlfs(ps) + Crlfs(cs) + "\r\n" + e
  {
    var ls := [b] + ps + cs + [e];
    assert ls[0] == b && ls[1..] == ps + cs + [e];
    CrlfsConcat(ps + cs, [e]);
    CrlfsConcat(ps, cs);
    CrlfsSingle(e);
  }

  lemma {:induction false} ChildBlocksAsLines(cs: seq<Node>)
    ensures ChildBlocks(cs) == Crlfs(ChildLines(cs))
    decreases cs, 0
  {
    if cs != [] {
      var init, c := cs[..|cs| - 1], cs[|cs| - 1];
      ChildBlocksAsLines(init);
      RenderAsLines(c);
      CrlfsConcat(ChildLines(init), Lines(c));
      CrlfsNonEmpty(Lines(c));
    }
  }

  /** A property line starts with one of the keys, one that `strtoupper` leaves alone. */
  lemma {:induction false} PropLinesAreUpper(p: Props, ks: seq<string>)
    ensures forall l :: l in PropLineSeq(p, ks) ==> exists k :: k in ks && IsUpper(k) && l == PropLine(p, k)
  {
    if ks != [] {
      PropLinesAreUpper(p, ks[..|ks| - 1]);
    }
  }

  /**
   The bookkeeping keys `type`, `sequence` and `children` never start a
   property line: no property line begins with one of them and a colon.
   */
  lemma NoBookkeepingLine(p: Props)
    ensures forall l :: l in PropLineSeq(p, p.keys) ==> !("type:" <= l) && !("sequence:" <= l) && !("children:" <= l)
  {
    PropLinesAreUpper(p, p.keys);
    forall l | l in PropLineSeq(p, p.keys)
      ensures !("type:" <= l) && !("sequence:" <= l) && !("children:" <= l)
    {
      var k :| k in p.keys && IsUpper(k) && l == PropLine(p, k);
      IsUpperIffNoLower(k);
      assert |l| > 0 && !IsLowerAscii(l[0]) by {
        if k == [] {
          assert l[0] == ':';
        } else {
          assert l[0] == k[0];
        }
      }
    }
  }

  /** Each upper-case key among `ks` has its line among the lines of `ks`. */
  lemma {:induction false} KeyIsRendered(p: Props, ks: seq<string>, k: string)
    requires k in ks && IsUpper(k)
    ensures PropLine(p, k) in PropLineSeq(p, ks)
  {
    if ks[|ks| - 1] != k {
      assert k in ks[..|ks| - 1] by {
        var j :| 0 <= j < |ks| && ks[j] == k;
        assert ks[..|ks| - 1][j] == k;
      }
      KeyIsRendered(p, ks[..|ks| - 1], k);
    }
  }

  /** Every upper-case property of a component appears as its own line, with its current value. */
  lemma PropertyIsRendered(p: Props, k: string, v: string)
    requires WellFormed(p) && IsUpper(k) && Get(p, k) == Some(v)
    ensures k + ":" + v in PropLineSeq(p, p.keys)
  {
    KeyIsRendered(p, p.keys, k);
  }

  /** Keys whose texts agree in two arrays give the same property text. */
  lemma {:induction false} PropLinesPointwise(p: Props, q: Props, ks: seq<string>)
    requires forall k :: k in ks ==> KeyText(p, k) == KeyText(q, k)
    ensures PropLines(p, ks) == PropLines(q, ks)
  {
    if ks != [] {
      PropLinesPointwise(p, q, ks[..|ks| - 1]);
    }
  }

  /**
   Writing a key that is not upper case, such as `sequence`, never changes
   the property text, whether the key was there before or not.
   */
  lemma LowercaseKeyIsSilent(p: Props, k: string, v: string)
    requires WellFormed(p) && !IsUpper(k)
    ensures var r := Put(p, k, v); PropLines(r, r.keys) == PropLines(p, p.keys)
  {
    var r := Put(p, k, v);
    PutSpec(p, k, v);
    forall k' | k' in p.keys ensures KeyText(r, k') == KeyText(p, k') {
      if k' != k {
        assert Get(r, k') == Get(p, k');
      }
    }
    PropLinesPointwise(r, p, p.keys);
    if k !in p.keys {
      assert r.keys[..|r.keys| - 1] == p.keys;
    }
  }

  /**
   The whole text of a component does not depend on its bookkeeping
   entries: setting `sequence` (or any other key that is not upper case,
   other than `type`) leaves it unchanged.
   */
  lemma RenderIgnoresBookkeeping(p: Props, cs: seq<Node>, k: string, v: string)
    requires WellFormed(p) && !IsUpper(k) && k != "type"
    ensures Render(Node(Put(p, k, v), cs)) == Render(Node(p, cs))
  {
    LowercaseKeyIsSilent(p, k, v);
    PutSpec(p, k, v);
    assert Get(Put(p, k, v), "type") == Get(p, "type");
  }

  /** Appending a child inserts exactly its text, after a CRLF, before the `END:` line. */
  lemma {:induction false} RenderAppendChild(p: Props, cs: seq<Node>, c: Node)
    ensures var head := "BEGIN:" + TypeOf(p) + PropLines(p, p.keys) + ChildBlocks(cs);
            && Render(Node(p, cs)) == head + "\r\nEND:" + TypeOf(p)
            && Render(Node(p, cs + [c])) == head + "\r\n" + Render(c) + "\r\nEND:" + TypeOf(p)
  {
    var cs' := cs + [c];
    assert cs'[..|cs'| - 1] == cs && cs'[|cs'| - 1] == c;
    assert ChildBlocks(cs') == ChildBlocks(cs) + "\r\n" + Render(c);
  }
}
