/** Text extraction from a provider reply: the text of every block that carries
    text, in content order, joined by single spaces. */
module Extraction {
  import opened Content

  /** The text a block contributes: a text block's text, or the text field an
      other kind of block may carry. Tool-use blocks contribute nothing. */
  function TextOf(b: Block): Option<string> {
    match b
    case Text(t) => Some(t)
    case ToolUse(_, _, _) => None
    case Other(_, t) => t
  }

  /** The texts of the contributing blocks, in block order. */
  function TextParts(blocks: seq<Block>): (parts: seq<string>)
    ensures |parts| <= |blocks|
    ensures parts == [] <==> forall i :: 0 <= i < |blocks| ==> TextOf(blocks[i]).None?
  {
    if blocks == [] then []
    else (match TextOf(blocks[0]) case Some(t) => [t] case None => []) + TextParts(blocks[1..])
  }

  /** The total length of a list of strings. */
  function TotalLength(parts: seq<string>): nat {
    if parts == [] then 0 else |parts[0]| + TotalLength(parts[1..])
  }

  /** The strings of `parts` separated by one space each: the characters of
      every part plus one separator between each two neighbours. */
  function Join(parts: seq<string>): (s: string)
    ensures parts == [] ==> s == ""
    ensures |parts| == 1 ==> s == parts[0]
    ensures parts != [] ==> |s| == TotalLength(parts) + |parts| - 1
  {
    if |parts| == 0 then ""
    else if |parts| == 1 then parts[0]
    else parts[0] + " " + Join(parts[1..])
  }

  /** Splitting at every space: the inverse of `Join` on words without spaces. */
  function Split(s: string): (pieces: seq<string>)
    ensures |pieces| >= 1
  {
    if s == [] then [""]
    else if s[0] == ' ' then [""] + Split(s[1..])
    else var rest := Split(s[1..]); [[s[0]] + rest[0]] + rest[1..]
  }

  /** The text of a reply; "" when no block carries text. */
  function ExtractText(r: Response): (s: string)
    ensures (forall i :: 0 <= i < |r.content| ==> TextOf(r.content[i]).None?) ==> s == ""
  {
    var parts := TextParts(r.content);
    if parts != [] then Join(parts) else ""
  }

  lemma {:induction false} TextPartsAppend(a: seq<Block>, b: seq<Block>)
    ensures TextParts(a + b) == TextParts(a) + TextParts(b)
  {
    if a == [] {
      assert a + b == b;
    } else {
      assert (a + b)[0] == a[0];
      assert (a + b)[1..] == a[1..] + b;
      TextPartsAppend(a[1..], b);
    }
  }

  /** A string is among the extracted parts exactly when some block carries it. */
  lemma {:induction false} TextPartsMembers(blocks: seq<Block>, t: string)
    ensures t in TextParts(blocks) <==> exists i :: 0 <= i < |blocks| && TextOf(blocks[i]) == Some(t)
  {
    if blocks != [] {
      var tail := blocks[1..];
      TextPartsMembers(tail, t);
      if exists i :: 0 <= i < |blocks| && TextOf(blocks[i]) == Some(t) {
        var i :| 0 <= i < |blocks| && TextOf(blocks[i]) == Some(t);
        if i > 0 {
          assert TextOf(tail[i - 1]) == Some(t);
        }
      }
      if exists j :: 0 <= j < |tail| && TextOf(tail[j]) == Some(t) {
        var j :| 0 <= j < |tail| && TextOf(tail[j]) == Some(t);
        assert TextOf(blocks[j + 1]) == Some(t);
      }
    }
  }

  lemma {:induction false} JoinAppend(p: seq<string>, q: seq<string>)
    requires p != [] && q != []
    ensures Join(p + q) == Join(p) + " " + Join(q)
  {
    if |p| == 1 {
      assert (p + q)[1..] == q;
    } else {
      assert (p + q)[1..] == p[1..] + q;
      JoinAppend(p[1..], q);
    }
  }

  lemma {:induction false} JoinLength(parts: seq<string>, k: nat)
    requires k < |parts|
    ensures |Join(parts)| >= |parts[k]|
  {
    if k > 0 {
      JoinLength(parts[1..], k - 1);
    }
  }

  lemma {:induction false} SplitWord(w: string, tail: string)
    requires ' ' !in w
    ensures Split(w + tail) == [w + Split(tail)[0]] + Split(tail)[1..]
  {
    if w == [] {
      var pieces := Split(tail);
      assert w + tail == tail;
      assert w + pieces[0] == pieces[0];
      assert pieces == [pieces[0]] + pieces[1..];
    } else {
      assert (w + tail)[0] == w[0];
      assert (w + tail)[1..] == w[1..] + tail;
      SplitWord(w[1..], tail);
      assert [w[0]] + (w[1..] + Split(tail)[0]) == w + Split(tail)[0];
    }
  }

  /** Joining words that hold no space and splitting again gives the words back. */
  lemma {:induction false} SplitJoin(parts: seq<string>)
    requires parts != []
    requires forall k :: 0 <= k < |parts| ==> ' ' !in parts[k]
    ensures Split(Join(parts)) == parts
  {
    if |parts| == 1 {
      SplitWord(parts[0], "");
      assert parts[0] + "" == parts[0];
    } else {
      var rest := Join(parts[1..]);
      SplitJoin(parts[1..]);
      assert (" " + rest)[0] == ' ';
      assert (" " + rest)[1..] == rest;
      assert Split(" " + rest) == [""] + parts[1..];
      SplitWord(parts[0], " " + rest);
      assert parts[0] + " " + rest == parts[0] + (" " + rest);
      assert parts[0] + "" == parts[0];
      assert [parts[0]] + parts[1..] == parts;
    }
  }

  /** The extracted text of a reply whose content is `a` followed by `b` is the
      text of `a`, one space, and the text of `b`; blocks without text leave
      the text of the others unchanged. */
  lemma ExtractTextConcat(stop: string, a: seq<Block>, b: seq<Block>)
    ensures TextParts(b) == [] ==> ExtractText(Response(stop, a + b)) == ExtractText(Response(stop, a))
    ensures TextParts(a) == [] ==> ExtractText(Response(stop, a + b)) == ExtractText(Response(stop, b))
    ensures TextParts(a) != [] && TextParts(b) != [] ==>
      ExtractText(Response(stop, a + b)) == ExtractText(Response(stop, a)) + " " + ExtractText(Response(stop, b))
  {
    var pa, pb := TextParts(a), TextParts(b);
    TextPartsAppend(a, b);
    assert TextParts(Response(stop, a + b).content) == pa + pb;
    if pa != [] && pb != [] {
      JoinAppend(pa, pb);
    } else if pb == [] {
      assert pa + pb == pa;
    } else {
      assert pa + pb == pb;
    }
  }

  /** A reply in which some block carries non-empty text yields non-empty text,
      at least as long as that block's text. */
  lemma ExtractTextKeepsText(r: Response, i: nat)
    requires i < |r.content| && TextOf(r.content[i]).Some?
    ensures |ExtractText(r)| >= |TextOf(r.content[i]).value|
  {
    var t := TextOf(r.content[i]).value;
    var parts := TextParts(r.content);
    TextPartsMembers(r.content, t);
    var k :| 0 <= k < |parts| && parts[k] == t;
    JoinLength(parts, k);
  }

  /** Splitting the extracted text at spaces recovers every contributing text,
      in order, when those texts hold no space themselves. */
  lemma ExtractTextRoundTrip(r: Response)
    requires TextParts(r.content) != []
    requires forall k :: 0 <= k < |TextParts(r.content)| ==> ' ' !in TextParts(r.content)[k]
    ensures Split(ExtractText(r)) == TextParts(r.content)
  {
    SplitJoin(TextParts(r.content));
  }
}
