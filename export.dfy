/** The conversation exporters (`app/utils/exportUtils.ts`): the plain-text
    and Markdown documents built from a message list, and the download names. */
module Export {

  datatype Role = UserRole | AssistantRole
  datatype Message = Message(role: Role, content: string)

  /** `c.repeat(n)`. */
  function Repeat(c: char, n: nat): (r: string)
    ensures |r| == n
    ensures forall i :: 0 <= i < n ==> r[i] == c
  {
    if n == 0 then [] else [c] + Repeat(c, n - 1)
  }

  /** `blocks.join('')`. */
  function Concat(blocks: seq<string>): string
  {
    if blocks == [] then "" else blocks[0] + Concat(blocks[1..])
  }

  /** `blocks.join(sep)`. */
  function Join(blocks: seq<string>, sep: string): string
  {
    if blocks == [] then ""
    else if |blocks| == 1 then blocks[0]
    else blocks[0] + sep + Join(blocks[1..], sep)
  }

  // Plain text.

  const TxtRule: string := Repeat('=', 50)

  function TxtBlock(m: Message): string
  {
    (if m.role == UserRole then "TÚ:" else "ASISTENTE:") + "\n" + m.content + "\n\n---\n\n"
  }

  function TxtBlocks(ms: seq<Message>): (r: seq<string>)
    ensures |r| == |ms| && forall i :: 0 <= i < |ms| ==> r[i] == TxtBlock(ms[i])
  {
    seq(|ms|, i requires 0 <= i < |ms| => TxtBlock(ms[i]))
  }

  function TxtHeader(title: string): string
  {
    title + "\n" + TxtRule + "\n\n"
  }

  /** The text `exportToTXT` puts in its blob. */
  function ExportTxt(ms: seq<Message>, title: string): string
  {
    TxtHeader(title) + Concat(TxtBlocks(ms))
  }

  // Markdown.

  function MdBlock(m: Message): string
  {
    (if m.role == UserRole then "## 👤 Tú" else "## ✨ Asistente") + "\n\n" + m.content + "\n\n---\n"
  }

  function MdBlocks(ms: seq<Message>): (r: seq<string>)
    ensures |r| == |ms| && forall i :: 0 <= i < |ms| ==> r[i] == MdBlock(ms[i])
  {
    seq(|ms|, i requires 0 <= i < |ms| => MdBlock(ms[i]))
  }

  /** The text `exportToMarkdown` puts in its blob. */
  function ExportMarkdown(ms: seq<Message>, title: string): string
  {
    "# " + title + "\n\n" + Join(MdBlocks(ms), "\n")
  }

  // Download names.

  datatype Format = Txt | Markdown | Html | Json

  function Extension(f: Format): string
  {
    match f
    case Txt => ".txt"
    case Markdown => ".md"
    case Html => ".html"
    case Json => ".json"
  }

  /** The filename each exporter hands to `downloadBlob`. */
  function FileName(title: string, f: Format): (name: string)
    ensures |name| > |title| && name[..|title|] == title && name[|title|..] == Extension(f)
  {
    title + Extension(f)
  }

  /** Each exporter names its download after the conversation title with its
      own extension. */
  lemma FileNamesPerFormat(title: string)
    ensures FileName(title, Txt) == title + ".txt"
    ensures FileName(title, Markdown) == title + ".md"
    ensures FileName(title, Html) == title + ".html"
    ensures FileName(title, Json) == title + ".json"
  {
  }

  /** For one title, two formats give the same file name only when they are
      the same format. */
  lemma FileNamesDistinct(title: string, f: Format, g: Format)
    ensures FileName(title, f) == FileName(title, g) <==> f == g
  {
    if FileName(title, f) == FileName(title, g) {
      assert Extension(f) == FileName(title, f)[|title|..] == Extension(g);
    }
  }

  // ---------------------------------------------------------------------
  // Properties.

  /** `join('')` is a homomorphism from lists of blocks to strings. */
  lemma {:induction false} ConcatAppend(a: seq<string>, b: seq<string>)
    ensures Concat(a + b) == Concat(a) + Concat(b)
    decreases |a|
  {
    if a == [] {
      assert a + b == b;
    } else {
      assert (a + b)[1..] == a[1..] + b;
      ConcatAppend(a[1..], b);
    }
  }

  /** Joining one more block adds the separator and the block, except after
      an empty list. */
  lemma {:induction false} JoinAppend(a: seq<string>, x: string, sep: string)
    ensures Join(a + [x], sep) == if a == [] then x else Join(a, sep) + sep + x
    decreases |a|
  {
    if a == [] {
      assert a + [x] == [x];
    } else if |a| == 1 {
      assert a + [x] == [a[0], x];
      assert [a[0], x][1..] == [x];
    } else {
      assert (a + [x])[1..] == a[1..] + [x];
      JoinAppend(a[1..], x, sep);
    }
  }

  /** The rule under the title is exactly fifty '='. */
  lemma RuleIsFiftyEquals()
    ensures |TxtRule| == 50 && forall i :: 0 <= i < 50 ==> TxtRule[i] == '='
  {
  }

  /** An empty conversation exports to its header alone: title, rule and a
      blank line in text, `# title` and a blank line in Markdown. */
  lemma EmptyConversation(title: string)
    ensures ExportTxt([], title) == title + "\n" + TxtRule + "\n\n"
    ensures ExportMarkdown([], title) == "# " + title + "\n\n"
  {
    assert TxtBlocks([]) == [];
    assert MdBlocks([]) == [];
  }

  /** The text export grows by one block per message, in order, with nothing
      between blocks. */
  lemma TxtAppendMessage(ms: seq<Message>, m: Message, title: string)
    ensures ExportTxt(ms + [m], title) == ExportTxt(ms, title) + TxtBlock(m)
  {
    assert TxtBlocks(ms + [m]) == TxtBlocks(ms) + [TxtBlock(m)];
    ConcatAppend(TxtBlocks(ms), [TxtBlock(m)]);
    assert Concat([TxtBlock(m)]) == TxtBlock(m);
  }

  /** The Markdown export grows by a newline and one block per message, in
      order. */
  lemma MarkdownAppendMessage(ms: seq<Message>, m: Message, title: string)
    ensures ExportMarkdown(ms + [m], title) ==
      ExportMarkdown(ms, title) + (if ms == [] then "" else "\n") + MdBlock(m)
  {
    var blocks, header := MdBlocks(ms), "# " + title + "\n\n";
    assert MdBlocks(ms + [m]) == blocks + [MdBlock(m)];
    JoinAppend(blocks, MdBlock(m), "\n");
    if ms == [] {
      assert blocks == [];
    } else {
      assert header + (Join(blocks, "\n") + "\n" + MdBlock(m)) == header + Join(blocks, "\n") + "\n" + MdBlock(m);
    }
  }

  /** Message `i` contributes its block at the place given by the messages
      before it: the text export is the header, the blocks of the earlier
      messages, this block, then the blocks of the later ones. */
  lemma TxtBlockInPlace(ms: seq<Message>, i: nat, title: string)
    requires i < |ms|
    ensures ExportTxt(ms, title) ==
      TxtHeader(title) + Concat(TxtBlocks(ms[..i])) + TxtBlock(ms[i]) + Concat(TxtBlocks(ms[i + 1..]))
  {
    BlocksInPlace(ms, i);
  }

  lemma BlocksInPlace(ms: seq<Message>, i: nat)
    requires i < |ms|
    ensures Concat(TxtBlocks(ms)) == Concat(TxtBlocks(ms[..i])) + TxtBlock(ms[i]) + Concat(TxtBlocks(ms[i + 1..]))
  {
    var before, after := TxtBlocks(ms[..i]), TxtBlocks(ms[i + 1..]);
    assert ms == ms[..i] + [ms[i]] + ms[i + 1..];
    TxtBlocksAppend(ms[..i] + [ms[i]], ms[i + 1..]);
    TxtBlocksAppend(ms[..i], [ms[i]]);
    assert TxtBlocks([ms[i]]) == [TxtBlock(ms[i])];
    assert TxtBlocks(ms) == before + [TxtBlock(ms[i])] + after;
    ConcatAppend(before + [TxtBlock(ms[i])], after);
    ConcatAppend(before, [TxtBlock(ms[i])]);
    assert Concat([TxtBlock(ms[i])]) == TxtBlock(ms[i]);
  }

  lemma TxtBlocksAppend(a: seq<Message>, b: seq<Message>)
    ensures TxtBlocks(a + b) == TxtBlocks(a) + TxtBlocks(b)
  {
  }

  /** The heading and the closing rule of a Markdown block stand around the
      content unchanged. */
  lemma MdBlockShape(m: Message)
    ensures var head := if m.role == UserRole then "## 👤 Tú" else "## ✨ Asistente";
      var b := MdBlock(m);
      && |b| == |head| + 2 + |m.content| + 6
      && b[..|head| + 2] == head + "\n\n"
      && b[|head| + 2..|head| + 2 + |m.content|] == m.content
      && b[|head| + 2 + |m.content|..] == "\n\n---\n"
  {
  }

  /** The role line and the closing rule of a text block stand around the
      content unchanged. */
  lemma TxtBlockShape(m: Message)
    ensures var tag := if m.role == UserRole then "TÚ:" else "ASISTENTE:";
      var b := TxtBlock(m);
      && |b| == |tag| + 1 + |m.content| + 7
      && b[..|tag| + 1] == tag + "\n"
      && b[|tag| + 1..|tag| + 1 + |m.content|] == m.content
      && b[|tag| + 1 + |m.content|..] == "\n\n---\n\n"
  {
  }
}
