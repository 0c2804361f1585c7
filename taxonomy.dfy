/**
 * NFR taxonomy strings: '|'-delimited tokens, normalised by stripping,
 * case-mapping and dropping empty and repeated tokens.  Python's `str.title`
 * is a parameter, `casing`; the properties that need it to behave are stated
 * under WellBehaved.
 */
module Taxonomy {
  import opened Values
  import opened Seqs
  import opened Strings

  /** A token as it appears in a normalised string: non-empty, stripped, without '|'. */
  predicate Clean(t: string) {
    t != "" && Trimmed(t) && '|' !in t
  }

  /** Every token is clean. */
  predicate AllClean(ts: seq<string>) {
    forall t :: t in ts ==> Clean(t)
  }

  /**
   * What the model needs of `str.title`: applying it twice is applying it
   * once, and it maps a clean token to a clean token.
   */
  ghost predicate WellBehaved(casing: string -> string) {
    && (forall t :: casing(casing(t)) == casing(t))
    && (forall t {:trigger casing(t)} :: Clean(t) ==> Clean(casing(t)))
  }

  /** `[p.strip() for p in pieces if p.strip()]`. */
  function Stripped(pieces: seq<string>): (r: seq<string>)
    ensures |r| <= |pieces|
    decreases |pieces|
  {
    if |pieces| == 0 then []
    else
      var t := Strip(pieces[0]);
      (if t != "" then [t] else []) + Stripped(pieces[1..])
  }

  /** The stripped tokens are non-empty and trimmed, and clean when no piece holds a '|'. */
  lemma {:induction false} StrippedTokens(pieces: seq<string>)
    ensures forall t :: t in Stripped(pieces) ==> t != "" && Trimmed(t)
    ensures FreeOf(pieces, '|') ==> AllClean(Stripped(pieces))
    decreases |pieces|
  {
    if |pieces| > 0 {
      var t := Strip(pieces[0]);
      var rest := Stripped(pieces[1..]);
      StrippedTokens(pieces[1..]);
      assert Stripped(pieces) == (if t != "" then [t] else []) + rest;
      forall x | x in Stripped(pieces) ensures x != "" && Trimmed(x) {
        if x !in rest {
          assert x == t;
        }
      }
      if FreeOf(pieces, '|') {
        forall i | 0 <= i < |pieces[1..]| ensures '|' !in pieces[1..][i] {
          assert pieces[1..][i] == pieces[i + 1];
        }
        assert '|' !in pieces[0];
      }
    }
  }

  /** Stripping clean tokens keeps them all. */
  lemma {:induction false} StrippedClean(ts: seq<string>)
    requires AllClean(ts)
    ensures Stripped(ts) == ts
    decreases |ts|
  {
    if |ts| > 0 {
      assert Clean(ts[0]);
      StripStripped(ts[0]);
      StrippedClean(ts[1..]);
      ConsTail(ts);
    }
  }

  /** `parse_taxonomy`: the stripped, non-empty '|'-separated tokens. */
  function ParseTaxonomy(s: string): (r: seq<string>)
    ensures s == "" ==> r == []
    ensures AllClean(r)
  {
    if s == "" then []
    else
      SplitFreeOf(s, '|');
      StrippedTokens(Split(s, '|'));
      Stripped(Split(s, '|'))
  }

  /** A join of at least one non-empty token is non-empty. */
  lemma JoinNonEmpty(ts: seq<string>, sep: char)
    requires |ts| > 0 && ts[0] != ""
    ensures Join(ts, sep) != ""
  {
    if |ts| > 1 {
      assert Join(ts, sep) == ts[0] + [sep] + Join(ts[1..], sep);
    }
  }

  /** Parsing a '|'-join of clean tokens gives the tokens back. */
  lemma ParseJoin(ts: seq<string>)
    requires AllClean(ts)
    ensures ParseTaxonomy(Join(ts, '|')) == ts
  {
    if |ts| > 0 {
      assert Clean(ts[0]);
      JoinNonEmpty(ts, '|');
      assert FreeOf(ts, '|') by {
        forall i | 0 <= i < |ts| ensures '|' !in ts[i] {
          assert Clean(ts[i]);
        }
      }
      SplitJoin(ts, '|');
      StrippedClean(ts);
    }
  }

  /** `[casing(t) for t in ts]`. */
  function Titled(ts: seq<string>, casing: string -> string): (r: seq<string>)
    ensures |r| == |ts| && forall i :: 0 <= i < |ts| ==> r[i] == casing(ts[i])
    decreases |ts|
  {
    if |ts| == 0 then [] else [casing(ts[0])] + Titled(ts[1..], casing)
  }

  /** What `normalize_taxonomy` returns. */
  function Normalized(s: Option<string>, casing: string -> string): string {
    if s.None? || s.value == "" then "" else Join(Dedupe(Titled(ParseTaxonomy(s.value), casing)), '|')
  }

  /**
   * `normalize_taxonomy`: the case-mapped tokens, each kept the first time it
   * occurs, joined by '|'; None and "" give "".
   */
  method NormalizeTaxonomy(s: Option<string>, casing: string -> string) returns (r: string)
    ensures r == Normalized(s, casing)
    ensures s.None? || s == Some("") ==> r == ""
  {
    if s.None? || s.value == "" {
      return "";
    }
    var unique := UniqueTokens(Titled(ParseTaxonomy(s.value), casing));
    r := Join(unique, '|');
  }

  /** The loop of `normalize_taxonomy` that keeps each token the first time it is seen. */
  method UniqueTokens(tokens: seq<string>) returns (unique: seq<string>)
    ensures unique == Dedupe(tokens)
    ensures Distinct(unique) && Elems(unique) == Elems(tokens)
  {
    var seen: set<string> := {};
    unique := [];
    for i := 0 to |tokens|
      invariant unique == Dedupe(tokens[..i])
      invariant seen == Elems(tokens[..i])
    {
      TakeStep(tokens, i);
      DedupeStep(tokens[..i], tokens[i]);
      if tokens[i] !in seen {
        seen := seen + {tokens[i]};
        unique := unique + [tokens[i]];
      }
    }
    assert tokens[..|tokens|] == tokens;
    DedupeElems(tokens);
  }

  /** The unique tokens of a normalisation are clean when the case mapping is. */
  lemma UniqueClean(s: string, casing: string -> string)
    requires WellBehaved(casing)
    ensures var u := Dedupe(Titled(ParseTaxonomy(s), casing));
            Distinct(u) && AllClean(u) && forall i :: 0 <= i < |u| ==> casing(u[i]) == u[i]
  {
    var p := ParseTaxonomy(s);
    var ts := Titled(p, casing);
    var u := Dedupe(ts);
    DedupeElems(ts);
    forall x | x in u ensures Clean(x) && casing(x) == x {
      assert x in Elems(ts);
      var k :| 0 <= k < |ts| && ts[k] == x;
      assert Clean(p[k]);
    }
  }

  /** A normalised string parses back into exactly its unique tokens. */
  lemma NormalizedParse(s: string, casing: string -> string)
    requires WellBehaved(casing)
    ensures var u := Dedupe(Titled(ParseTaxonomy(s), casing));
            var r := Normalized(Some(s), casing);
            r == Join(u, '|') && ParseTaxonomy(r) == u
  {
    var u := Dedupe(Titled(ParseTaxonomy(s), casing));
    UniqueClean(s, casing);
    ParseJoin(u);
  }

  /**
   * A normalised string splits into distinct, non-empty, stripped tokens:
   * every case-mapped input token once, in the order of first occurrence.
   */
  lemma NormalizedTokens(s: string, casing: string -> string)
    requires WellBehaved(casing)
    ensures var ts := Titled(ParseTaxonomy(s), casing);
            var u := ParseTaxonomy(Normalized(Some(s), casing));
            && Distinct(u)
            && AllClean(u)
            && Elems(u) == Elems(ts)
            && (forall i, j :: 0 <= i < j < |u| ==> u[i] in ts && u[j] in ts && FirstIndex(ts, u[i]) < FirstIndex(ts, u[j]))
  {
    var ts := Titled(ParseTaxonomy(s), casing);
    var u := Dedupe(ts);
    NormalizedParse(s, casing);
    assert ParseTaxonomy(Normalized(Some(s), casing)) == u;
    UniqueClean(s, casing);
    DedupeElems(ts);
    DedupeOrder(ts);
  }

  /** Normalising a normalised string changes nothing. */
  lemma NormalizeIdempotent(s: Option<string>, casing: string -> string)
    requires WellBehaved(casing)
    ensures Normalized(Some(Normalized(s, casing)), casing) == Normalized(s, casing)
  {
    if s.Some? && s.value != "" {
      var u := Dedupe(Titled(ParseTaxonomy(s.value), casing));
      UniqueClean(s.value, casing);
      NormalizedParse(s.value, casing);
      assert Titled(u, casing) == u;
      DedupeDistinct(u);
    }
  }

  /** The verdict of `validate_taxonomy`. */
  datatype Verdict = Verdict(valid: bool, message: string)

  /** `[t for t in tokens if t not in valid]`. */
  function Outside(tokens: seq<string>, valid: set<string>): (r: seq<string>)
    ensures forall i :: 0 <= i < |r| ==> r[i] in tokens && r[i] !in valid
    ensures forall i :: 0 <= i < |tokens| && tokens[i] !in valid ==> tokens[i] in r
    ensures |r| > 0 ==> r[0] != "" || "" in tokens
    decreases |tokens|
  {
    if |tokens| == 0 then []
    else (if tokens[0] in valid then [] else [tokens[0]]) + Outside(tokens[1..], valid)
  }

  /**
   * `validate_taxonomy`: "" is valid; otherwise there must be a token, and
   * when a non-empty set of valid tokens is given, every token must be in it.
   */
  function ValidateTaxonomy(s: string, validTokens: Option<set<string>>): (r: Verdict)
    ensures s == "" ==> r == Verdict(true, "")
    ensures r.valid <==>
              || s == ""
              || (&& ParseTaxonomy(s) != []
                  && (validTokens.None? || validTokens.value == {} ||
                      forall i :: 0 <= i < |ParseTaxonomy(s)| ==> ParseTaxonomy(s)[i] in validTokens.value))
    ensures r.valid <==> r.message == ""
    ensures s != "" && ParseTaxonomy(s) == [] ==> r.message == "Empty taxonomy after parsing"
    ensures s != "" && ParseTaxonomy(s) != [] && validTokens.Some? && validTokens.value != {} && !r.valid ==>
              r.message == "Invalid tokens: " + JoinWith(Outside(ParseTaxonomy(s), validTokens.value), ", ")
  {
    if s == "" then Verdict(true, "")
    else
      var tokens := ParseTaxonomy(s);
      if tokens == [] then Verdict(false, "Empty taxonomy after parsing")
      else if validTokens.Some? && validTokens.value != {} && Outside(tokens, validTokens.value) != [] then
        Verdict(false, "Invalid tokens: " + JoinWith(Outside(tokens, validTokens.value), ", "))
      else Verdict(true, "")
  }

  /** The parsed tokens of every non-empty input, in order (`all_tokens`). */
  function AllTokens(taxonomies: seq<string>): (r: seq<string>)
    ensures AllClean(r)
    decreases |taxonomies|
  {
    if |taxonomies| == 0 then []
    else
      var init := AllTokens(taxonomies[..|taxonomies| - 1]);
      var last := taxonomies[|taxonomies| - 1];
      init + (if last != "" then ParseTaxonomy(last) else [])
  }

  /** What `merge_taxonomies` returns. */
  function Merged(taxonomies: seq<string>, casing: string -> string): string {
    Normalized(Some(Join(AllTokens(taxonomies), '|')), casing)
  }

  /** `merge_taxonomies`: collect the tokens of every input, then normalise their join. */
  method MergeTaxonomies(taxonomies: seq<string>, casing: string -> string) returns (r: string)
    ensures r == Merged(taxonomies, casing)
  {
    var all: seq<string> := [];
    for i := 0 to |taxonomies|
      invariant all == AllTokens(taxonomies[..i])
    {
      assert taxonomies[..i + 1][..i] == taxonomies[..i];
      if taxonomies[i] != "" {
        all := all + ParseTaxonomy(taxonomies[i]);
      }
    }
    assert taxonomies[..|taxonomies|] == taxonomies;
    r := NormalizeTaxonomy(Some(Join(all, '|')), casing);
  }

  /**
   * Merging is deduplicating the case-mapped tokens of all inputs, in
   * order: rejoining them with '|' does not split or merge any token.
   */
  lemma MergeDedupes(taxonomies: seq<string>, casing: string -> string)
    ensures Merged(taxonomies, casing) == Join(Dedupe(Titled(AllTokens(taxonomies), casing)), '|')
  {
    var all := AllTokens(taxonomies);
    var s := Join(all, '|');
    ParseJoin(all);
    if |all| == 0 {
      assert s == "" && Titled(all, casing) == [];
    } else {
      assert all[0] in all;
      assert Clean(all[0]);
      JoinNonEmpty(all, '|');
      assert Titled(ParseTaxonomy(s), casing) == Titled(all, casing);
    }
  }

  /** So a merge holds each token once, and each is clean. */
  lemma MergeDuplicateFree(taxonomies: seq<string>, casing: string -> string)
    requires WellBehaved(casing)
    ensures var u := ParseTaxonomy(Merged(taxonomies, casing));
            Distinct(u) && AllClean(u)
  {
    var s := Join(AllTokens(taxonomies), '|');
    NormalizedParse(s, casing);
    UniqueClean(s, casing);
  }

  /** The set parts of `compare_taxonomies`. */
  datatype Comparison = Comparison(common: set<string>, onlyInFirst: set<string>, onlyInSecond: set<string>,
                                   allUnique: set<string>)

  /**
   * `compare_taxonomies`: the shared tokens, the tokens of one side only, and
   * all tokens; the three parts are disjoint and together make up the whole.
   */
  function CompareTaxonomies(tax1: string, tax2: string): (r: Comparison)
    ensures forall x :: x in r.common <==> x in ParseTaxonomy(tax1) && x in ParseTaxonomy(tax2)
    ensures forall x :: x in r.onlyInFirst <==> x in ParseTaxonomy(tax1) && x !in ParseTaxonomy(tax2)
    ensures forall x :: x in r.onlyInSecond <==> x in ParseTaxonomy(tax2) && x !in ParseTaxonomy(tax1)
    ensures forall x :: x in r.allUnique <==> x in ParseTaxonomy(tax1) || x in ParseTaxonomy(tax2)
    ensures r.common !! r.onlyInFirst && r.common !! r.onlyInSecond && r.onlyInFirst !! r.onlyInSecond
    ensures r.common + r.onlyInFirst + r.onlyInSecond == r.allUnique
  {
    var tokens1, tokens2 := TokenSet(tax1), TokenSet(tax2);
    Comparison(tokens1 * tokens2, tokens1 - tokens2, tokens2 - tokens1, tokens1 + tokens2)
  }

  /** The distinct tokens of a taxonomy string (`set(parse_taxonomy(s))`). */
  function TokenSet(s: string): (r: set<string>)
    ensures forall x :: x in r <==> x in ParseTaxonomy(s)
  {
    var ts := ParseTaxonomy(s);
    Elems(ts)
  }

  /** Comparing the other way round swaps the one-sided parts. */
  lemma CompareSwapped(tax1: string, tax2: string)
    ensures var r, s := CompareTaxonomies(tax1, tax2), CompareTaxonomies(tax2, tax1);
            s == Comparison(r.common, r.onlyInSecond, r.onlyInFirst, r.allUnique)
  {
  }
}
