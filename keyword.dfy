/** The keyword filter of the list handler: a tag matches a keyword query
    when the keyword occurs in its name, its slug or its description. Only
    literal keywords are modelled, so a regular-expression match becomes
    substring containment. */
module KeywordFilter {
  import opened TagModel

  /** `k` occurs somewhere in `text`. */
  predicate Contains(text: string, k: string)
    decreases |text|
  {
    k <= text || (text != [] && Contains(text[1..], k))
  }

  /** Some position of `text` starts a copy of `k`: where a literal
      regular expression finds a match. */
  ghost predicate OccursIn(text: string, k: string) {
    exists i :: 0 <= i <= |text| - |k| && k <= text[i..]
  }

  /** `Contains` holds exactly when the keyword occurs at some position. */
  lemma {:induction false} ContainsAt(text: string, k: string)
    ensures Contains(text, k) <==> OccursIn(text, k)
    decreases |text|
  {
    if k <= text {
      assert text[0..] == text;
    } else if text != [] {
      ContainsAt(text[1..], k);
      if Contains(text, k) {
        var i :| 0 <= i <= |text[1..]| - |k| && k <= text[1..][i..];
        assert text[1..][i..] == text[i + 1..];
      } else {
        forall i | 0 <= i <= |text| - |k| ensures !(k <= text[i..]) {
          if i > 0 {
            assert text[1..][i - 1..] == text[i..];
          } else {
            assert text[0..] == text;
          }
        }
      }
    }
  }

  /** Whether a tag passes the store query: `{}` lets every tag through; the
      `$or` filter lets a tag through exactly when the keyword occurs at some
      position of its name, its slug or its description. */
  function Matches(q: Query, t: Tag): (r: bool)
    ensures q.Everything? ==> r
    ensures q.Keyword? ==>
      (r <==> OccursIn(t.name, q.keyword) || OccursIn(t.slug, q.keyword) || OccursIn(t.description, q.keyword))
  {
    match q
    case Everything => true
    case Keyword(k) =>
      ContainsAt(t.name, k);
      ContainsAt(t.slug, k);
      ContainsAt(t.description, k);
      Contains(t.name, k) || Contains(t.slug, k) || Contains(t.description, k)
  }

  /** A keyword whose first character does not occur in `text` is not
      contained in it. */
  lemma {:induction false} MissingFirstChar(text: string, k: string)
    requires k != [] && forall i :: 0 <= i < |text| ==> text[i] != k[0]
    ensures !Contains(text, k)
    decreases |text|
  {
    if text != [] {
      assert text[0] != k[0];
      assert forall i :: 0 <= i < |text[1..]| ==> text[1..][i] == text[i + 1];
      MissingFirstChar(text[1..], k);
    }
  }

  /** Every text contains the empty keyword. */
  lemma EmptyKeywordEverywhere(text: string)
    ensures Contains(text, "")
  {
  }

  /** A keyword that occurs in a prefix of `text` occurs in `text`. */
  lemma {:induction false} ContainsInPrefix(text: string, p: string, k: string)
    requires p <= text && Contains(p, k)
    ensures Contains(text, k)
    decreases |p|
  {
    if k <= p {
    } else {
      assert p != [] && Contains(p[1..], k);
      assert p[1..] <= text[1..];
      ContainsInPrefix(text[1..], p[1..], k);
    }
  }

  /** Containment is transitive: a part of a part of `text` is a part of it. */
  lemma {:induction false} ContainsTransitive(text: string, k2: string, k1: string)
    requires Contains(text, k2) && Contains(k2, k1)
    ensures Contains(text, k1)
    decreases |text|
  {
    if k2 <= text {
      ContainsInPrefix(text, k2, k1);
    } else {
      ContainsTransitive(text[1..], k2, k1);
    }
  }

  /** The default keyword `''` lets every tag through, exactly as `{}` does. */
  lemma DefaultKeywordMatchesAll(t: Tag)
    ensures Matches(Keyword(""), t) == Matches(Everything, t)
  {
    EmptyKeywordEverywhere(t.name);
  }

  /** A longer keyword narrows the filter: whatever matches `k2` matches
      every keyword contained in `k2`. */
  lemma NarrowerKeyword(t: Tag, k1: string, k2: string)
    requires Contains(k2, k1)
    ensures Matches(Keyword(k2), t) ==> Matches(Keyword(k1), t)
  {
    if Contains(t.name, k2) {
      ContainsTransitive(t.name, k2, k1);
    } else if Contains(t.slug, k2) {
      ContainsTransitive(t.slug, k2, k1);
    } else if Contains(t.description, k2) {
      ContainsTransitive(t.description, k2, k1);
    }
  }
}
