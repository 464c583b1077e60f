/** Text output built line by line: `print(line)` and `f.write(line + "\n")` both add a line
    followed by a line break, and a numbered sequence of blocks is such a text. */
module Lines {
  import opened Text

  /** Lines written one after another, each followed by a line break. */
  function Render(lines: seq<string>): string {
    if lines == [] then "" else lines[0] + "\n" + Render(lines[1..])
  }

  lemma {:induction false} RenderAppend(a: seq<string>, b: seq<string>)
    ensures Render(a + b) == Render(a) + Render(b)
  {
    if a == [] {
      assert a + b == b;
    } else {
      assert (a + b)[1..] == a[1..] + b;
      RenderAppend(a[1..], b);
    }
  }

  /** Rendered lines that contain no line break are read back by splitting at line breaks; the
      final break leaves one empty part. */
  lemma {:induction false} SplitRender(lines: seq<string>)
    requires forall i :: 0 <= i < |lines| ==> '\n' !in lines[i]
    ensures Split(Render(lines), '\n') == lines + [""]
  {
    if lines != [] {
      SplitRender(lines[1..]);
      SplitAfter(lines[0], '\n', Render(lines[1..]));
      assert lines[0] + "\n" + Render(lines[1..]) == lines[0] + ['\n'] + Render(lines[1..]);
      assert [lines[0]] + (lines[1..] + [""]) == lines + [""];
    }
  }

  lemma RenderSnoc(lines: seq<string>, line: string)
    ensures Render(lines + [line]) == Render(lines) + line + "\n"
  {
    RenderAppend(lines, [line]);
    assert [line][1..] == [];
  }

  lemma RenderOne(line: string)
    ensures Render([line]) == line + "\n"
  {
    assert [line][1..] == [];
  }

  /** The blocks `block(first, xs[0])`, `block(first + 1, xs[1])`, ... one after another. */
  function Numbered<T>(block: (nat, T) -> seq<string>, xs: seq<T>, first: nat): seq<string> {
    if xs == [] then [] else Numbered(block, xs[..|xs| - 1], first) + block(first + |xs| - 1, xs[|xs| - 1])
  }

  lemma {:induction false} NumberedAppend<T>(block: (nat, T) -> seq<string>, a: seq<T>, b: seq<T>, first: nat)
    ensures Numbered(block, a + b, first) == Numbered(block, a, first) + Numbered(block, b, first + |a|)
    decreases |b|
  {
    if b == [] {
      assert a + b == a;
    } else {
      var init := b[..|b| - 1];
      assert (a + b)[..|a + b| - 1] == a + init;
      assert (a + b)[|a + b| - 1] == b[|b| - 1];
      NumberedAppend(block, a, init, first);
    }
  }

  lemma Middle<T>(p: seq<T>, b: seq<T>, r: seq<T>)
    ensures |p| + |b| <= |p + b + r| && (p + b + r)[|p|..|p| + |b|] == b
  {
  }

  lemma NumberedSnoc<T>(block: (nat, T) -> seq<string>, xs: seq<T>, x: T, first: nat)
    ensures Numbered(block, xs + [x], first) == Numbered(block, xs, first) + block(first + |xs|, x)
  {
    assert (xs + [x])[..|xs|] == xs;
  }

  lemma NumberedSingle<T>(block: (nat, T) -> seq<string>, x: T, first: nat)
    ensures Numbered(block, [x], first) == block(first, x)
  {
    assert [x][..0] == [];
  }

  /** `ls` holds the lines `b` starting at index `at`. */
  predicate Placed(ls: seq<string>, at: nat, b: seq<string>) {
    at + |b| <= |ls| && ls[at..at + |b|] == b
  }

  /** The block of `xs[i]` comes right after the blocks of the elements before it. */
  lemma NumberedAt<T>(block: (nat, T) -> seq<string>, xs: seq<T>, first: nat, i: nat)
    requires i < |xs|
    ensures Placed(Numbered(block, xs, first), |Numbered(block, xs[..i], first)|, block(first + i, xs[i]))
  {
    var rest := xs[i..];
    var p := Numbered(block, xs[..i], first);
    var b := block(first + i, xs[i]);
    var r := Numbered(block, rest[1..], first + i + 1);
    assert xs == xs[..i] + ([xs[i]] + rest[1..]);
    NumberedAppend(block, xs[..i], [xs[i]] + rest[1..], first);
    NumberedAppend(block, [xs[i]], rest[1..], first + i);
    NumberedSingle(block, xs[i], first + i);
    assert Numbered(block, xs, first) == p + (b + r);
    assert p + (b + r) == p + b + r;
    Middle(p, b, r);
  }


  /** One more element adds its block's text to the rendered blocks. */
  lemma RenderedStep<T>(block: (nat, T) -> seq<string>, xs: seq<T>, i: nat, first: nat)
    requires i < |xs|
    ensures Render(Numbered(block, xs[..i + 1], first)) ==
      Render(Numbered(block, xs[..i], first)) + Render(block(first + i, xs[i]))
  {
    TakeSnoc(xs, i);
    NumberedSnoc(block, xs[..i], xs[i], first);
    RenderAppend(Numbered(block, xs[..i], first), block(first + i, xs[i]));
  }
}
