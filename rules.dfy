/** Ordered keyword tables: the shape shared by every classifier of the
    core, where the first entry with a keyword occurring in the text wins. */
module Rules {
  import opened Wrappers
  import opened Strings

  /** One entry of an ordered table: a outcome and the keywords that select it. */
  datatype Rule<L> = Rule(outcome: L, keywords: seq<string>)

  /** Some keyword of the entry occurs in some of the texts. */
  predicate Hits(texts: seq<string>, keywords: seq<string>)
  {
    exists t, j | 0 <= t < |texts| && 0 <= j < |keywords| :: Contains(texts[t], keywords[j])
  }

  /** The position of the first entry that hits, or `|rules|` when none does. */
  function FirstHit<L>(rules: seq<Rule<L>>, texts: seq<string>): (k: nat)
    ensures k <= |rules|
    ensures k < |rules| ==> Hits(texts, rules[k].keywords)
    ensures forall i | 0 <= i < k :: !Hits(texts, rules[i].keywords)
  {
    if rules == [] then 0
    else if Hits(texts, rules[0].keywords) then 0
    else 1 + FirstHit(rules[1..], texts)
  }

  /** `r` is what an ordered table gives: the outcome of the first entry
      that hits, or `default` when no entry does. */
  ghost predicate Selects<L>(rules: seq<Rule<L>>, texts: seq<string>, default: L, r: L)
  {
    (exists i | 0 <= i < |rules| :: rules[i].outcome == r && Hits(texts, rules[i].keywords)
       && forall j | 0 <= j < i :: !Hits(texts, rules[j].keywords))
    || (r == default && forall j | 0 <= j < |rules| :: !Hits(texts, rules[j].keywords))
  }

  /** The outcome of the first entry that hits, else `default`. */
  function FirstMatch<L>(rules: seq<Rule<L>>, texts: seq<string>, default: L): (r: L)
    ensures Selects(rules, texts, default, r)
  {
    var k := FirstHit(rules, texts);
    if k < |rules| then rules[k].outcome else default
  }

  /** The outcome of the first entry that hits the text, if any. */
  function FirstOutcome<L>(rules: seq<Rule<L>>, text: string): Option<L>
  {
    var k := FirstHit(rules, [text]);
    if k < |rules| then Some(rules[k].outcome) else None
  }

  /** The first matching entry decides, whatever later entries would say. */
  lemma FirstMatchAt<L>(rules: seq<Rule<L>>, texts: seq<string>, default: L, i: nat)
    requires i < |rules| && Hits(texts, rules[i].keywords)
    requires forall j | 0 <= j < i :: !Hits(texts, rules[j].keywords)
    ensures FirstMatch(rules, texts, default) == rules[i].outcome
  {
  }

  /** With no entry hitting, the default is returned. */
  lemma FirstMatchNone<L>(rules: seq<Rule<L>>, texts: seq<string>, default: L)
    requires forall j | 0 <= j < |rules| :: !Hits(texts, rules[j].keywords)
    ensures FirstMatch(rules, texts, default) == default
  {
  }

  /** A result other than the default comes from an entry that hits and
      that no earlier entry pre-empts. */
  lemma FirstMatchWitness<L>(rules: seq<Rule<L>>, texts: seq<string>, default: L)
    ensures var r := FirstMatch(rules, texts, default);
      r == default
      || exists i | 0 <= i < |rules| :: rules[i].outcome == r && Hits(texts, rules[i].keywords)
           && forall j | 0 <= j < i :: !Hits(texts, rules[j].keywords)
  {
  }

  /** Single-text shorthand for building hits from an occurrence. */
  lemma HitsBy(text: string, keywords: seq<string>, j: nat)
    requires j < |keywords| && Contains(text, keywords[j])
    ensures Hits([text], keywords)
  {
    assert [text][0] == text;
  }
}
