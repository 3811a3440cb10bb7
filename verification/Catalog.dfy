// One catalog, many tables: a scan lists names, and the names decide which
// table's runs it meets.
module Catalog {
  import opened Naming
  import G = Guard

  function Suffix(a: G.Artifact): string {
    if a.Lock? then LOCK_SUFFIX else STAGING_SUFFIX
  }

  /** Every token spelled as it stands in names: one width, no two alike. */
  ghost predicate Spells(spell: G.Token -> string) {
    && (forall r :: |spell(r)| == TOKEN_LEN)
    && (forall r, t :: spell(r) == spell(t) ==> r == t)
  }

  /** The name of each marker of each table. */
  ghost predicate Stands(tables: map<string, G.State>, spell: G.Token -> string, name: string) {
    exists b, m :: b in tables && m in tables[b].markers && name == Minted(b, spell(m.0), Suffix(m.1))
  }

  /** A run of table `b` finds `t`: some name in the catalog is anchored as an
      artifact of `b` and carries `t`'s token. */
  ghost predicate Finds(tables: map<string, G.State>, spell: G.Token -> string, b: string, t: G.Token) {
    exists name, a ::
      Stands(tables, spell, name) && Anchored(name, b, Suffix(a)) && TokenPart(name, b, Suffix(a)) == spell(t)
  }

  /** The characters between the table and the suffix of an anchored name. */
  function TokenPart(name: string, b: string, suffix: string): string
    requires Anchored(name, b, suffix)
  {
    name[|b|..|b| + TOKEN_LEN]
  }

  lemma LockIsNotStaging(x: string, y: string)
    ensures x + LOCK_SUFFIX != y + STAGING_SUFFIX
  {
    LastOf(x + LOCK_SUFFIX, LOCK_SUFFIX);
    LastOf(y + STAGING_SUFFIX, STAGING_SUFFIX);
    assert EndsWith(x + LOCK_SUFFIX, LOCK_SUFFIX) && EndsWith(y + STAGING_SUFFIX, STAGING_SUFFIX);
  }

  /** A minted name is anchored for a table and an artifact only if it was
      minted for both. */
  lemma AnchoredIsMinted(a: string, tok: string, art: G.Artifact, b: string, other: G.Artifact)
    requires |tok| == TOKEN_LEN && Anchored(Minted(a, tok, Suffix(art)), b, Suffix(other))
    ensures a == b && art == other && TokenPart(Minted(a, tok, Suffix(art)), b, Suffix(other)) == tok
  {
    var n := Minted(a, tok, Suffix(art));
    assert n == n[..|n| - |Suffix(other)|] + Suffix(other);
    if art != other {
      if art.Lock? {
        LockIsNotStaging(a + tok, n[..|n| - |Suffix(other)|]);
      } else {
        LockIsNotStaging(n[..|n| - |Suffix(other)|], a + tok);
      }
    }
    MineIsExact(a, b, tok, Suffix(art));
    assert n[|a|..|a| + TOKEN_LEN] == tok;
  }

  /** Over the whole catalog a run of table `b` finds exactly the runs marked
      on `b`: no run of another table is ever among its blockers, even where
      one table's name is a prefix of the other's. */
  lemma OtherTablesUnseen(tables: map<string, G.State>, spell: G.Token -> string, b: string, t: G.Token)
    requires Spells(spell) && b in tables
    ensures Finds(tables, spell, b, t) <==> G.Marked(tables[b], t)
  {
    if Finds(tables, spell, b, t) {
      var name, a :| Stands(tables, spell, name) && Anchored(name, b, Suffix(a))
                     && TokenPart(name, b, Suffix(a)) == spell(t);
      var c, m :| c in tables && m in tables[c].markers && name == Minted(c, spell(m.0), Suffix(m.1));
      AnchoredIsMinted(c, spell(m.0), m.1, b, a);
      assert m == (t, a);
    }
    if G.Marked(tables[b], t) {
      var a := if (t, G.Lock) in tables[b].markers then G.Lock else G.Staging;
      var m := (t, a);
      var name := Minted(b, spell(t), Suffix(a));
      assert m in tables[b].markers && name == Minted(b, spell(m.0), Suffix(m.1));
      assert Stands(tables, spell, name);
      MineIsExact(b, b, spell(t), Suffix(a));
      assert name[|b|..|b| + TOKEN_LEN] == spell(t);
    }
  }

  /** So what a scan of the catalog blocks on is what the machine of its own
      table says, whatever every other table holds. */
  lemma ScanIsLocal(who: G.Runs, tables: map<string, G.State>, spell: G.Token -> string, b: string, r: G.Token,
                    t: G.Token)
    requires Spells(spell) && b in tables && r in who
    ensures Finds(tables, spell, b, t) && G.Blocks(who, r, t) <==> t in G.Blockers(who, tables[b], r)
  {
    OtherTablesUnseen(tables, spell, b, t);
    G.ScanFinds(who, tables[b], r, t);
  }
}
