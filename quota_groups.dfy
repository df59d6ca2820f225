/** Grouping of a credential's quota entries by model family for display:
    an id whose lower-cased form contains "claude" is a Claude model,
    otherwise one containing "gemini" is a Gemini model, anything else is
    other. Entries are pushed onto their group in input order. */
module QuotaGroups {

  /** One model's quota as the server reports it: remaining fraction and an
      opaque reset description. */
  datatype ModelQuota = ModelQuota(remaining: real, resetTime: string)

  /** An entry of the quota object: model id and its quota. */
  type QuotaEntry = (string, ModelQuota)

  datatype Family = Claude | Gemini | Other

  datatype Grouped = Grouped(claude: seq<QuotaEntry>, gemini: seq<QuotaEntry>, other: seq<QuotaEntry>)

  /** ASCII lower-casing of one character. */
  function LowerChar(c: char): char
  {
    if 'A' <= c <= 'Z' then (c as int + 32) as char else c
  }

  /** The lower-cased text has no upper-case ASCII letter left, and every
      character that was not one is kept in place. */
  function Lower(s: string): (r: string)
    ensures |r| == |s|
    ensures forall i | 0 <= i < |r| :: !('A' <= r[i] <= 'Z')
    ensures forall i | 0 <= i < |s| && !('A' <= s[i] <= 'Z') :: r[i] == s[i]
  {
    seq(|s|, i requires 0 <= i < |s| => LowerChar(s[i]))
  }

  /** part occurs in s starting at position i. */
  predicate OccursAt(s: string, part: string, i: nat)
  {
    i + |part| <= |s| && s[i..i + |part|] == part
  }

  /** String includes: part occurs at some position of s. */
  predicate Includes(s: string, part: string)
  {
    exists i: nat | i <= |s| :: OccursAt(s, part, i)
  }

  /** The family a model id is classified into; "claude" is checked first. */
  function FamilyOf(modelId: string): Family
  {
    if Includes(Lower(modelId), "claude") then Claude
    else if Includes(Lower(modelId), "gemini") then Gemini
    else Other
  }

  /** The entries of one family, in input order. */
  function InFamily(entries: seq<QuotaEntry>, f: Family): seq<QuotaEntry>
  {
    if entries == [] then []
    else
      var last := entries[|entries| - 1];
      InFamily(entries[..|entries| - 1], f) + (if FamilyOf(last.0) == f then [last] else [])
  }

  /** The grouping loop: each entry is pushed onto the group of its family. */
  method GroupByFamily(entries: seq<QuotaEntry>) returns (g: Grouped)
    ensures g.claude == InFamily(entries, Claude)
    ensures g.gemini == InFamily(entries, Gemini)
    ensures g.other == InFamily(entries, Other)
  {
    g := Grouped([], [], []);
    for i := 0 to |entries|
      invariant g.claude == InFamily(entries[..i], Claude)
      invariant g.gemini == InFamily(entries[..i], Gemini)
      invariant g.other == InFamily(entries[..i], Other)
    {
      assert entries[..i + 1][..i] == entries[..i];
      var item := entries[i];
      if Includes(Lower(item.0), "claude") {
        g := g.(claude := g.claude + [item]);
      } else if Includes(Lower(item.0), "gemini") {
        g := g.(gemini := g.gemini + [item]);
      } else {
        g := g.(other := g.other + [item]);
      }
    }
    assert entries[..|entries|] == entries;
  }

  /** An entry is in a group exactly when it is an input entry of that
      family; so each entry lands in exactly one group. */
  lemma {:induction false} InFamilyMembers(entries: seq<QuotaEntry>, f: Family, e: QuotaEntry)
    ensures e in InFamily(entries, f) <==> e in entries && FamilyOf(e.0) == f
  {
    if entries != [] {
      InFamilyMembers(entries[..|entries| - 1], f, e);
      assert entries == entries[..|entries| - 1] + [entries[|entries| - 1]];
    }
  }

  /** Grouping distributes over concatenation: the relative order of the
      entries is kept within each group. */
  lemma {:induction false} InFamilyAppend(a: seq<QuotaEntry>, b: seq<QuotaEntry>, f: Family)
    ensures InFamily(a + b, f) == InFamily(a, f) + InFamily(b, f)
  {
    if b != [] {
      assert (a + b)[..|a + b| - 1] == a + b[..|b| - 1];
      InFamilyAppend(a, b[..|b| - 1], f);
    } else {
      assert a + b == a;
    }
  }

  /** The last entry goes to its own family's group and no other. */
  lemma InFamilySnoc(init: seq<QuotaEntry>, last: QuotaEntry, f: Family)
    ensures InFamily(init + [last], f) == InFamily(init, f) + (if FamilyOf(last.0) == f then [last] else [])
  {
    assert (init + [last])[..|init|] == init;
  }

  /** The three groups together hold every entry exactly as often as the
      input does; in particular their sizes sum to the number of entries. */
  lemma {:induction false} GroupsPartitionEntries(entries: seq<QuotaEntry>)
    ensures multiset(InFamily(entries, Claude)) + multiset(InFamily(entries, Gemini)) + multiset(InFamily(entries, Other))
            == multiset(entries)
    ensures |InFamily(entries, Claude)| + |InFamily(entries, Gemini)| + |InFamily(entries, Other)| == |entries|
  {
    if entries != [] {
      var init, last := entries[..|entries| - 1], entries[|entries| - 1];
      assert entries == init + [last];
      GroupsPartitionEntries(init);
      InFamilySnoc(init, last, Claude);
      InFamilySnoc(init, last, Gemini);
      InFamilySnoc(init, last, Other);
      assert multiset(entries) == multiset(init) + multiset{last};
    }
  }

  /** "claude" wins over "gemini", and the test ignores ASCII case. */
  lemma ClaudeCheckedFirst(modelId: string)
    requires Includes(Lower(modelId), "claude")
    ensures FamilyOf(modelId) == Claude
  {
  }

  /** Lower-casing is idempotent, so an id and its lower-cased form fall in
      the same family. */
  lemma FamilyIgnoresCase(modelId: string)
    ensures Lower(Lower(modelId)) == Lower(modelId)
    ensures FamilyOf(Lower(modelId)) == FamilyOf(modelId)
  {
  }

  /** A mixed-case id naming both families is a Claude model. */
  lemma MixedCaseExample()
    ensures FamilyOf("Gemini-CLAUDE-proxy") == Claude
  {
    var id := "Gemini-CLAUDE-proxy";
    assert Lower(id)[7..13] == "claude";
    assert OccursAt(Lower(id), "claude", 7);
  }
}
