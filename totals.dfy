/**
 * Merging the four domain results into the one mapping written to the
 * report: mail, then fleet, then MPS, then production, each key keeping the
 * value of the last domain that has it and the place of its first appearance.
 */
module Totals {
  import opened Builtins
  import opened Dicts

  /** The per-domain results of one month's run. */
  datatype Mor = Mor(fleet: Dict, mail: Dict, mps: Dict, production: Dict)

  /** `compile_totals`: every item of every domain, in the order mail, fleet, MPS, production. */
  function CompileTotals(m: Mor): Dict
  {
    PutAll(Empty, Items(m.mail) + Items(m.fleet) + Items(m.mps) + Items(m.production))
  }

  /**
   * The merged keys are those of the four domains, each listed where it first
   * appears when the domains are read in the order mail, fleet, MPS,
   * production; so a key belongs to the merge exactly when one of them has it.
   */
  lemma CompileTotalsKeys(m: Mor)
    ensures Keys(CompileTotals(m)) == Dedup(Keys(m.mail) + Keys(m.fleet) + Keys(m.mps) + Keys(m.production))
    ensures forall k :: k in Keys(CompileTotals(m)) <==>
      k in Keys(m.mail) || k in Keys(m.fleet) || k in Keys(m.mps) || k in Keys(m.production)
  {
    var a, b, c, e := Items(m.mail), Items(m.fleet), Items(m.mps), Items(m.production);
    PutAllKeys(Empty, a + b + c + e);
    assert Keys(Empty) == [];
    KeysOfAppend(a + b + c, e);
    KeysOfAppend(a + b, c);
    KeysOfAppend(a, b);
    ItemsKeys(m.mail);
    ItemsKeys(m.fleet);
    ItemsKeys(m.mps);
    ItemsKeys(m.production);
    assert [] + (Keys(m.mail) + Keys(m.fleet) + Keys(m.mps) + Keys(m.production))
      == Keys(m.mail) + Keys(m.fleet) + Keys(m.mps) + Keys(m.production);
    DedupMembers(Keys(m.mail) + Keys(m.fleet) + Keys(m.mps) + Keys(m.production));
  }

  /**
   * Last writer wins: a key takes its production value if production has it,
   * else its MPS value, else its fleet value, else its mail value; a key that
   * only one domain has keeps that domain's value.
   */
  lemma CompileTotalsLookup(m: Mor, k: string)
    ensures Lookup(CompileTotals(m), k) ==
      if Lookup(m.production, k).Some? then Lookup(m.production, k)
      else if Lookup(m.mps, k).Some? then Lookup(m.mps, k)
      else if Lookup(m.fleet, k).Some? then Lookup(m.fleet, k)
      else Lookup(m.mail, k)
  {
    var a, b, c, e := Items(m.mail), Items(m.fleet), Items(m.mps), Items(m.production);
    PutAllLookup(Empty, a + b + c + e, k);
    assert Lookup(Empty, k) == None;
    LastWriteAppend(a + b + c, e, k);
    LastWriteAppend(a + b, c, k);
    LastWriteAppend(a, b, k);
    LastWriteItems(m.mail, k);
    LastWriteItems(m.fleet, k);
    LastWriteItems(m.mps, k);
    LastWriteItems(m.production, k);
  }

  /** Four empty domains merge to an empty mapping. */
  lemma CompileTotalsEmpty()
    ensures Keys(CompileTotals(Mor(Empty, Empty, Empty, Empty))) == []
  {
    CompileTotalsKeys(Mor(Empty, Empty, Empty, Empty));
    assert Keys(Empty) == [];
    assert Dedup([] + [] + [] + []) == [];
  }

  /**
   * A key that no later domain has keeps the value of the domain that has
   * it: production always wins, MPS wins over fleet and mail, fleet over mail.
   */
  lemma CompileTotalsDisjoint(m: Mor, k: string)
    ensures k in Keys(m.production) ==> Lookup(CompileTotals(m), k) == Lookup(m.production, k)
    ensures k in Keys(m.mps) && k !in Keys(m.production) ==> Lookup(CompileTotals(m), k) == Lookup(m.mps, k)
    ensures k in Keys(m.fleet) && k !in Keys(m.mps) && k !in Keys(m.production) ==>
      Lookup(CompileTotals(m), k) == Lookup(m.fleet, k)
    ensures k in Keys(m.mail) && k !in Keys(m.fleet) && k !in Keys(m.mps) && k !in Keys(m.production) ==>
      Lookup(CompileTotals(m), k) == Lookup(m.mail, k)
  {
    KeysLookup(m.mail);
    KeysLookup(m.fleet);
    KeysLookup(m.mps);
    KeysLookup(m.production);
    CompileTotalsLookup(m, k);
  }
}
