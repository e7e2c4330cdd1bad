/** The comment roll-up of `createTask`: every Jira comment of an issue
    flattened into one ClickUp comment text. */
module Comments {
  import opened Js
  import opened Jira

  /** The text built so far, and whether building ran to the end (`false`
      once a property read threw and the `catch` took over). */
  datatype Progress = Progress(text: string, complete: bool)

  /** Run `q` after `p`: nothing more is appended once `p` has thrown. */
  function Then(p: Progress, q: Progress): Progress {
    if p.complete then Progress(p.text + q.text, q.complete) else p
  }

  /** Run `step` on every element in order, stopping at the first throw. */
  function Chain<T>(xs: seq<T>, step: T -> Progress): Progress {
    if xs == [] then Progress("", true)
    else Then(Chain(xs[..|xs| - 1], step), step(xs[|xs| - 1]))
  }

  /** An inline item: its text and a line break when the text is truthy. */
  function InlineStep(item: Inline): Progress {
    Progress(if TruthyText(item.text) then item.text.value + "\n" else "", true)
  }

  /** A content block: its inline items; reading a missing `content` throws. */
  function BlockStep(block: Block): Progress {
    match block.content
    case None => Progress("", false)
    case Some(items) => Chain(items, InlineStep)
  }

  /** `${item.author.displayName}`: a missing name renders as "undefined". */
  function DisplayName(author: Author): string {
    match author.displayName
    case None => "undefined"
    case Some(s) => s
  }

  function Header(author: Author): string {
    DisplayName(author) + " commented: \n"
  }

  /** One comment: a missing author throws before anything is appended; the
      header is appended before the body is read. */
  function CommentStep(c: Comment): Progress {
    match c.author
    case None => Progress("", false)
    case Some(author) =>
      match c.body
      case None => Progress(Header(author), false)
      case Some(blocks) => Then(Progress(Header(author), true), Chain(blocks, BlockStep))
  }

  /** The loop over `comment.comments`. */
  function RollUp(comments: seq<Comment>): Progress {
    Chain(comments, CommentStep)
  }

  /** `commentText` after the `try`/`catch`; a missing `comments` list throws
      at once and leaves the text empty. */
  function CommentText(field: CommentField): string {
    match field.comments
    case None => ""
    case Some(comments) => RollUp(comments).text
  }

  /** The comment posted to the new task, if any: only when the issue has a
      comment field and the roll-up is non-empty. */
  function PostedComment(field: Option<CommentField>): Option<string> {
    match field
    case None => None
    case Some(f) => if |CommentText(f)| > 0 then Some(CommentText(f)) else None
  }

  lemma ThenAssociative(p: Progress, q: Progress, r: Progress)
    ensures Then(Then(p, q), r) == Then(p, Then(q, r))
  {
    if p.complete && q.complete {
      assert (p.text + q.text) + r.text == p.text + (q.text + r.text);
    }
  }

  /** Chaining over a concatenation is chaining over each part in turn. */
  lemma {:induction false} ChainAppend<T>(a: seq<T>, b: seq<T>, step: T -> Progress)
    ensures Chain(a + b, step) == Then(Chain(a, step), Chain(b, step))
    decreases |b|
  {
    if b == [] {
      assert a + b == a;
      assert Chain(a, step).text + "" == Chain(a, step).text;
    } else {
      var init := b[..|b| - 1];
      assert (a + b)[..|a + b| - 1] == a + init;
      ChainAppend(a, init, step);
      ThenAssociative(Chain(a, step), Chain(init, step), step(b[|b| - 1]));
    }
  }

  /** One more element of a prefix. */
  lemma ChainSnoc<T>(xs: seq<T>, j: nat, step: T -> Progress)
    requires j < |xs|
    ensures Chain(xs[..j + 1], step) == Then(Chain(xs[..j], step), step(xs[j]))
  {
    assert xs[..j + 1][..j] == xs[..j];
  }

  /** Once element `i` throws after a clean prefix, the rest is ignored. */
  lemma {:induction false} ChainStopsAt<T>(xs: seq<T>, i: nat, step: T -> Progress)
    requires i < |xs|
    requires Chain(xs[..i], step).complete && !step(xs[i]).complete
    ensures Chain(xs, step) == Progress(Chain(xs[..i], step).text + step(xs[i]).text, false)
  {
    var upto := xs[..i + 1];
    assert upto[..|upto| - 1] == xs[..i] && upto[|upto| - 1] == xs[i];
    var stopped := Chain(upto, step);
    assert stopped == Progress(Chain(xs[..i], step).text + step(xs[i]).text, false);
    ChainAppend(upto, xs[i + 1..], step);
    assert upto + xs[i + 1..] == xs;
  }

  /** The roll-up as written: nested `forEach` loops growing `commentText`
      with `+=`; `complete` is false when the `catch` was reached. The two
      inner loops are the methods below. */
  method RollUpComments(comments: seq<Comment>) returns (text: string, complete: bool)
    ensures Progress(text, complete) == RollUp(comments)
  {
    text := "";
    var i := 0;
    while i < |comments|
      invariant 0 <= i <= |comments|
      invariant RollUp(comments[..i]) == Progress(text, true)
    {
      ChainSnoc(comments, i, CommentStep);
      var c := comments[i];
      if c.author.None? {
        ChainStopsAt(comments, i, CommentStep);
        return text, false;
      }
      text := text + Header(c.author.value);
      if c.body.None? {
        ChainStopsAt(comments, i, CommentStep);
        return text, false;
      }
      var bodyDone;
      text, bodyDone := AppendBlocks(text, c.body.value);
      if !bodyDone {
        ChainStopsAt(comments, i, CommentStep);
        return text, false;
      }
      i := i + 1;
    }
    assert comments[..i] == comments;
    complete := true;
  }

  /** `item.body.content.forEach(...)`: appends the blocks of one comment body. */
  method AppendBlocks(start: string, blocks: seq<Block>) returns (text: string, complete: bool)
    ensures Progress(text, complete) == Then(Progress(start, true), Chain(blocks, BlockStep))
  {
    text := start;
    var j := 0;
    while j < |blocks|
      invariant 0 <= j <= |blocks|
      invariant Chain(blocks[..j], BlockStep).complete
      invariant text == start + Chain(blocks[..j], BlockStep).text
    {
      if blocks[j].content.None? {
        ChainStopsAt(blocks, j, BlockStep);
        return text, false;
      }
      var items := blocks[j].content.value;
      ghost var prefix := Chain(blocks[..j], BlockStep);
      text := AppendInlines(text, items);
      ChainSnoc(blocks, j, BlockStep);
      ConcatAssoc(start, prefix.text, Chain(items, InlineStep).text);
      j := j + 1;
    }
    assert blocks[..j] == blocks;
    complete := true;
  }

  /** `item2.content.forEach(...)`: appends every truthy inline text. */
  method AppendInlines(start: string, items: seq<Inline>) returns (text: string)
    ensures Chain(items, InlineStep).complete
    ensures text == start + Chain(items, InlineStep).text
  {
    text := start;
    var k := 0;
    while k < |items|
      invariant 0 <= k <= |items|
      invariant Chain(items[..k], InlineStep).complete
      invariant text == start + Chain(items[..k], InlineStep).text
    {
      ChainSnoc(items, k, InlineStep);
      var item := items[k];
      if TruthyText(item.text) {
        ConcatAssoc(start, Chain(items[..k], InlineStep).text, item.text.value + "\n");
        text := text + (item.text.value + "\n");
      } else {
        assert Chain(items[..k], InlineStep).text + "" == Chain(items[..k], InlineStep).text;
      }
      k := k + 1;
    }
    assert items[..k] == items;
  }

  /** A comment that cannot be parsed abandons every comment after it. */
  lemma RollUpAbandonsRest(first: seq<Comment>, rest: seq<Comment>)
    requires !RollUp(first).complete
    ensures RollUp(first + rest) == RollUp(first)
  {
    ChainAppend(first, rest, CommentStep);
  }

  /** The roll-up is empty exactly when there is no comment or the first
      comment has no author: every comment that gets as far as its header
      contributes a non-empty one. */
  lemma RollUpEmptyIff(comments: seq<Comment>)
    ensures RollUp(comments).text == "" <==> comments == [] || comments[0].author.None?
  {
    if comments != [] {
      var c := comments[0];
      ChainAppend([c], comments[1..], CommentStep);
      assert [c] + comments[1..] == comments;
      assert [c][..0] == [];
      assert Chain([c], CommentStep) == Then(Progress("", true), CommentStep(c));
      var headed := Then(Chain([c], CommentStep), Chain(comments[1..], CommentStep));
      if c.author.Some? {
        var h := Header(c.author.value);
        assert |h| > 0;
        assert CommentStep(c).text[..|h|] == h;
        assert headed.text[..|CommentStep(c).text|] == CommentStep(c).text;
      }
    }
  }

  /** A comment is posted exactly when the issue has a comment field with a
      `comments` list whose first comment has an author. */
  lemma PostedCommentIff(field: Option<CommentField>)
    ensures PostedComment(field).Some? <==>
      && field.Some? && field.value.comments.Some?
      && field.value.comments.value != []
      && field.value.comments.value[0].author.Some?
  {
    if field.Some? && field.value.comments.Some? {
      RollUpEmptyIff(field.value.comments.value);
    }
  }
}
