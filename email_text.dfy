/**
 * The text normaliser of the e-mail ingestion function: `cleanText` turns an
 * e-mail body into one line of text without markup, by replacing every tag with a
 * blank, collapsing every run of white space into one blank, and trimming.
 */
module EmailText {
  import opened Common

  /**
   * What remains after the `<` of a tag: the regular expression `<[^>]*>?` runs to
   * the next `>` and takes it, or, when there is none, to the end of the text.
   */
  function AfterTag(s: string): (r: string)
    ensures |r| <= |s| && r == s[|s| - |r|..]
  {
    if s == [] then []
    else if s[0] == '>' then s[1..]
    else AfterTag(s[1..])
  }

  /** `text.replace(/<[^>]*>?/gm, " ")`: every tag, closed or not, becomes one blank. */
  function StripTags(s: string): (r: string)
    ensures '<' !in r
    ensures r != [] ==> s != []
    decreases |s|
  {
    if s == [] then []
    else if s[0] == '<' then " " + StripTags(AfterTag(s[1..]))
    else [s[0]] + StripTags(s[1..])
  }

  /** Every white-space character is a plain blank. */
  predicate OnlyBlanks(s: string)
  {
    forall i :: 0 <= i < |s| && IsSpace(s[i]) ==> s[i] == ' '
  }

  /** No two neighbouring characters are both white space. */
  predicate NoDoubleSpace(s: string)
  {
    forall i :: 0 < i < |s| ==> !(IsSpace(s[i - 1]) && IsSpace(s[i]))
  }

  /** `s.replace(/\s+/g, " ")`: every maximal run of white space becomes one blank. */
  function Collapse(s: string): (r: string)
    ensures s != [] <==> r != []
    ensures r != [] ==> (IsSpace(r[0]) <==> IsSpace(s[0]))
    decreases |s|
  {
    if s == [] then []
    else if IsSpace(s[0]) then " " + Collapse(TrimStart(s[1..]))
    else [s[0]] + Collapse(s[1..])
  }

  /** Collapsing leaves only single blanks as white space, and adds no `<`. */
  lemma {:induction false} CollapseShape(s: string)
    ensures OnlyBlanks(Collapse(s)) && NoDoubleSpace(Collapse(s))
    ensures '<' !in s ==> '<' !in Collapse(s)
    decreases |s|
  {
    if s != [] {
      var t := if IsSpace(s[0]) then TrimStart(s[1..]) else s[1..];
      var x := if IsSpace(s[0]) then ' ' else s[0];
      assert '<' in t ==> '<' in s;
      CollapseShape(t);
      assert Collapse(s) == [x] + Collapse(t);
      ConsKeeps(x, Collapse(t));
    }
  }

  /** Putting a blank before a collapsed text that does not start with white space keeps it collapsed. */
  lemma ConsKeeps(x: char, c: string)
    requires OnlyBlanks(c) && NoDoubleSpace(c)
    requires IsSpace(x) ==> x == ' ' && (c != [] ==> !IsSpace(c[0]))
    ensures OnlyBlanks([x] + c) && NoDoubleSpace([x] + c)
  {
    var r := [x] + c;
    forall i | 1 < i < |r| ensures !(IsSpace(r[i - 1]) && IsSpace(r[i])) {
      assert r[i - 1] == c[i - 2] && r[i] == c[i - 1];
    }
  }

  /** The shape of `cleanText`'s output. */
  predicate Normalized(s: string)
  {
    && '<' !in s
    && OnlyBlanks(s)
    && NoDoubleSpace(s)
    && (s != [] ==> !IsSpace(s[0]) && !IsSpace(s[|s| - 1]))
  }

  /** `cleanText`: "" for empty input, otherwise tags replaced, white space collapsed, then trimmed. */
  function CleanText(text: string): (r: string)
    ensures Normalized(r)
  {
    if text == [] then []
    else
      var c := Collapse(StripTags(text));
      CollapseShape(StripTags(text));
      TrimOfCollapsed(c);
      Trim(c)
  }

  /** Trimming keeps a contiguous piece, so the properties of a collapsed text survive it. */
  lemma TrimOfCollapsed(c: string)
    requires '<' !in c && OnlyBlanks(c) && NoDoubleSpace(c)
    ensures Normalized(Trim(c))
  {
    var a := TrimStart(c);
    var b := TrimEnd(a);
    var off := |c| - |a|;
    assert b == c[off..off + |b|];
    SliceKeeps(c, off, off + |b|);
  }

  /** Any contiguous piece of a collapsed text is collapsed too. */
  lemma SliceKeeps(c: string, lo: nat, hi: nat)
    requires lo <= hi <= |c|
    requires '<' !in c && OnlyBlanks(c) && NoDoubleSpace(c)
    ensures '<' !in c[lo..hi] && OnlyBlanks(c[lo..hi]) && NoDoubleSpace(c[lo..hi])
  {
    var b := c[lo..hi];
    forall i | 0 <= i < |b| ensures b[i] != '<' && (IsSpace(b[i]) ==> b[i] == ' ') {
      assert b[i] == c[lo + i];
    }
    forall i | 0 < i < |b| ensures !(IsSpace(b[i - 1]) && IsSpace(b[i])) {
      assert b[i - 1] == c[lo + i - 1] && b[i] == c[lo + i];
    }
  }

  /** Tag stripping leaves a text without `<` alone. */
  lemma {:induction false} StripTagsIdentity(s: string)
    requires '<' !in s
    ensures StripTags(s) == s
  {
    if s != [] {
      StripTagsIdentity(s[1..]);
      assert s == [s[0]] + s[1..];
    }
  }

  /** Collapsing leaves a text alone when its only white space is single blanks. */
  lemma {:induction false} CollapseIdentity(s: string)
    requires OnlyBlanks(s) && NoDoubleSpace(s)
    ensures Collapse(s) == s
    decreases |s|
  {
    if s != [] {
      var rest := s[1..];
      assert OnlyBlanks(rest) && NoDoubleSpace(rest) by {
        forall i | 0 < i < |rest| ensures !(IsSpace(rest[i - 1]) && IsSpace(rest[i])) {
          assert rest[i - 1] == s[i] && rest[i] == s[i + 1];
        }
      }
      if IsSpace(s[0]) {
        assert rest != [] ==> !IsSpace(rest[0]) by {
          if rest != [] { assert rest[0] == s[1]; }
        }
        assert TrimStart(rest) == rest;
      }
      CollapseIdentity(rest);
      assert s == [s[0]] + rest;
    }
  }

  /** A normalised text is a fixed point of `cleanText`. */
  lemma NormalizedIsFixed(s: string)
    requires Normalized(s)
    ensures CleanText(s) == s
  {
    if s != [] {
      StripTagsIdentity(s);
      CollapseIdentity(s);
      TrimIdentity(s);
    }
  }

  /** `cleanText` is idempotent: normalising normalised text changes nothing. */
  lemma CleanTextIdempotent(text: string)
    ensures CleanText(CleanText(text)) == CleanText(text)
  {
    NormalizedIsFixed(CleanText(text));
  }
}
