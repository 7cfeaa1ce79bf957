/** The `Input` component: the id it gives the `<input>`, and whether its label and error render. */
module InputComponent {
  import opened Wrappers
  import opened Text

  /** Every run of white space replaced by one `-`. */
  function Hyphenate(s: string): (r: string)
    ensures NoSpace(r)
    ensures |r| <= |s|
    ensures NoSpace(s) ==> r == s
    ensures forall c :: c in r ==> c == '-' || c in s
    decreases |s|
  {
    if s == [] then []
    else if IsSpace(s[0]) then
      var tail := TrimStart(s[1..]);
      assert forall c :: c in tail ==> c in s by {
        assert tail == s[|s| - |tail|..];
      }
      ['-'] + Hyphenate(tail)
    else
      var h := Hyphenate(s[1..]);
      assert NoSpace(s) ==> NoSpace(s[1..]) && [s[0]] + s[1..] == s;
      [s[0]] + h
  }

  /** A first character that is not white space is kept as it is. */
  lemma HyphenateCons(c: char, u: string)
    requires !IsSpace(c)
    ensures Hyphenate([c] + u) == [c] + Hyphenate(u)
  {
    assert ([c] + u)[0] == c && ([c] + u)[1..] == u;
  }

  /** One more such character in front of a word that passes through unchanged. */
  lemma HyphenateKeeps(c: char, t: string, rest: string)
    requires !IsSpace(c) && Hyphenate(t + rest) == t + Hyphenate(rest)
    ensures Hyphenate([c] + t + rest) == [c] + t + Hyphenate(rest)
  {
    HyphenateCons(c, t + rest);
    Text.ConcatAssoc([c], t, rest);
    Text.ConcatAssoc([c], t, Hyphenate(rest));
  }

  /** A word without white space passes through `Hyphenate` unchanged. */
  lemma {:induction false} HyphenateWord(w: string, rest: string)
    requires NoSpace(w)
    ensures Hyphenate(w + rest) == w + Hyphenate(rest)
    decreases |w|
  {
    if w == [] {
      assert w + rest == rest;
    } else {
      NoSpaceTail(w);
      HyphenateWord(w[1..], rest);
      HyphenateKeeps(w[0], w[1..], rest);
      assert [w[0]] + w[1..] == w;
    }
  }

  /** A whole run of white space, however long, becomes a single `-`. */
  lemma HyphenateRun(sp: string, t: string)
    requires sp != [] && forall c :: c in sp ==> IsSpace(c)
    requires t == [] || !IsSpace(t[0])
    ensures Hyphenate(sp + t) == "-" + Hyphenate(t)
  {
    var s := sp + t;
    assert s[0] == sp[0] && sp[0] in sp;
    assert s[1..] == sp[1..] + t;
    assert forall c :: c in sp[1..] ==> c in sp;
    TrimStartRun(sp[1..], t);
  }

  /** A word, then a run of white space, then text that starts with no white space. */
  lemma HyphenateWordThenRun(w: string, sp: string, t: string)
    requires NoSpace(w)
    requires sp != [] && forall c :: c in sp ==> IsSpace(c)
    requires t == [] || !IsSpace(t[0])
    ensures Hyphenate(w + sp + t) == w + "-" + Hyphenate(t)
  {
    assert w + sp + t == w + (sp + t);
    HyphenateWord(w, sp + t);
    HyphenateRun(sp, t);
  }

  /** Words joined by single spaces come out joined by `-`. */
  lemma {:induction false} HyphenateJoin(words: seq<string>)
    requires |words| >= 1
    requires forall i :: 0 <= i < |words| ==> words[i] != [] && NoSpace(words[i])
    ensures Hyphenate(Join(words, ' ')) == Join(words, '-')
  {
    if |words| == 1 {
      assert NoSpace(Join(words, ' '));
    } else {
      var rest := Join(words[1..], ' ');
      assert rest[0] == words[1][0] by {
        if |words[1..]| > 1 {
          assert rest == words[1] + [' '] + Join(words[2..], ' ');
        }
      }
      assert Join(words, ' ') == words[0] + [' '] + rest;
      HyphenateWordThenRun(words[0], [' '], rest);
      HyphenateJoin(words[1..]);
    }
  }

  /** The id derived from a label: lower-cased, then each white-space run turned into `-`. */
  function Slug(text: string): (id: string)
    ensures id == Hyphenate(Lower(text))
    ensures NoSpace(id) && |id| <= |text|
    ensures NoUpper(id)
  {
    var lower := Lower(text);
    assert NoUpper(lower);
    Hyphenate(lower)
  }

  /** Every word lower-cased. */
  function LowerAll(words: seq<string>): (r: seq<string>)
    ensures |r| == |words| && forall i :: 0 <= i < |words| ==> r[i] == Lower(words[i])
  {
    seq(|words|, i requires 0 <= i < |words| => Lower(words[i]))
  }

  /** Lower-casing a joined text lower-cases each piece. */
  lemma {:induction false} LowerJoin(words: seq<string>)
    requires |words| >= 1
    ensures Lower(Join(words, ' ')) == Join(LowerAll(words), ' ')
  {
    if |words| > 1 {
      LowerJoin(words[1..]);
      assert LowerAll(words[1..]) == LowerAll(words)[1..];
      var a, b := words[0] + [' '], Join(words[1..], ' ');
      assert Lower(a + b) == Lower(a) + Lower(b);
    }
  }

  /** A label of words separated by single spaces gives its lower-cased words joined by `-`. */
  lemma SlugOfWords(words: seq<string>)
    requires |words| >= 1
    requires forall i :: 0 <= i < |words| ==> words[i] != [] && NoSpace(words[i])
    ensures Slug(Join(words, ' ')) == Join(LowerAll(words), '-')
  {
    LowerJoin(words);
    var lw := LowerAll(words);
    assert forall i :: 0 <= i < |lw| ==> lw[i] != [] && NoSpace(lw[i]);
    HyphenateJoin(lw);
  }

  /** `id || label?.toLowerCase().replace(/\s+/g, '-')`. */
  function InputId(id: Option<string>, caption: Option<string>): (r: Option<string>)
    ensures Truthy(id) ==> r == id
    ensures !Truthy(id) && caption.None? ==> r.None?
    ensures !Truthy(id) && caption.Some? ==> r == Some(Slug(caption.value))
  {
    if Truthy(id) then id
    else match caption
      case None => None
      case Some(l) => Some(Slug(l))
  }

  /** A derived id is free of white space and no longer than its label. */
  lemma DerivedIdShape(text: string)
    ensures var r := InputId(None, Some(text));
      r.Some? && NoSpace(r.value) && |r.value| <= |text|
  {
  }

  /** No upper-case ASCII letter. */
  predicate NoUpper(s: string) {
    forall c :: c in s ==> !('A' <= c <= 'Z')
  }

  /** Lower-casing leaves text without upper-case letters alone. */
  lemma LowerOfNoUpper(s: string)
    requires NoUpper(s)
    ensures Lower(s) == s
  {
    assert forall i :: 0 <= i < |s| ==> s[i] in s;
  }

  /** Using a derived id as a label gives the same id back. */
  lemma SlugIdempotent(text: string)
    ensures Slug(Slug(text)) == Slug(text)
  {
    LowerOfNoUpper(Slug(text));
  }

  /** What the component renders around the `<input>`. */
  datatype InputView = InputView(labelText: Option<string>, htmlFor: Option<string>, inputId: Option<string>,
                                 errorText: Option<string>)

  function Render(id: Option<string>, caption: Option<string>, error: Option<string>): (v: InputView)
    ensures v.labelText.Some? <==> Truthy(caption)
    ensures v.labelText.Some? ==> v.labelText == caption && v.htmlFor == v.inputId
    ensures v.errorText.Some? <==> Truthy(error)
    ensures v.errorText.Some? ==> v.errorText == error
    ensures v.inputId == InputId(id, caption)
  {
    var inputId := InputId(id, caption);
    InputView(if Truthy(caption) then caption else None, if Truthy(caption) then inputId else None, inputId,
              if Truthy(error) then error else None)
  }
}
