/**
 * The model catalog: an ordered mapping from family name to an ordered mapping
 * from size label to the list of roles, walked family by family.
 */
module Catalog {
  import opened Ascii
  import opened Lines
  import opened Blocks

  /** One size of a family with the roles it supports. */
  datatype Variant = Variant(size: string, roles: seq<string>)

  /** A family and its sizes, in insertion order. */
  datatype Family = Family(name: string, variants: seq<Variant>)

  /** The catalog, families in insertion order. */
  type Catalog = seq<Family>

  /** One (family, size) pair as the generator visits it. */
  datatype Entry = Entry(family: string, size: string, roles: seq<string>)

  /** The version stamped into every document when none is given. */
  const DefaultVersion: string := "1.0.0"

  /** The roles a client can assign to a model. */
  const RoleVocabulary: set<string> := {"chat", "edit", "apply", "autocomplete", "embed"}

  /** The catalog the generator ships with. */
  const Models: Catalog := [
    Family("deepseek-r1", [
      Variant("1.5b", ["chat", "edit", "apply", "autocomplete"]),
      Variant("7b", ["chat", "edit", "apply", "autocomplete"]),
      Variant("8b", ["chat", "edit", "apply", "autocomplete"]),
      Variant("14b", ["chat", "edit", "apply"]),
      Variant("32b", ["chat", "edit", "apply"])]),
    Family("nomic-embed-text", [
      Variant("latest", ["embed"])]),
    Family("llama3.1", [
      Variant("8b", ["chat", "edit", "apply"]),
      Variant("70b", ["chat", "edit", "apply"])]),
    Family("llama3.2", [
      Variant("1b", ["chat", "edit", "apply"]),
      Variant("3b", ["chat", "edit", "apply"])]),
    Family("mistral", [
      Variant("7b", ["chat", "edit", "apply"])]),
    Family("qwen2.5-coder", [
      Variant("1.5b", ["chat", "edit", "apply", "autocomplete"]),
      Variant("3b", ["chat", "edit", "apply", "autocomplete"]),
      Variant("7b", ["chat", "edit", "apply", "autocomplete"]),
      Variant("14b", ["chat", "edit", "apply"]),
      Variant("32b", ["chat", "edit", "apply"])])
  ]

  /** Dictionary keys are unique: family names in the catalog, size labels within a family. */
  predicate UniqueKeys(c: Catalog) {
    (forall i, j :: 0 <= i < j < |c| ==> c[i].name != c[j].name)
    && (forall i :: 0 <= i < |c| ==> SizesUnique(c[i].variants))
  }

  predicate SizesUnique(vs: seq<Variant>) {
    forall j, k :: 0 <= j < k < |vs| ==> vs[j].size != vs[k].size
  }

  /** The number of sizes over all families. */
  function TotalSizes(c: Catalog): nat {
    if c == [] then 0 else |c[0].variants| + TotalSizes(c[1..])
  }

  /** The entries of one family, sizes in order. */
  function FamilyEntries(f: Family): seq<Entry> {
    seq(|f.variants|, j requires 0 <= j < |f.variants| => Entry(f.name, f.variants[j].size, f.variants[j].roles))
  }

  /** Every (family, size) pair, family-major, in catalog order. */
  function Flatten(c: Catalog): (es: seq<Entry>)
    ensures |es| == TotalSizes(c)
  {
    if c == [] then [] else FamilyEntries(c[0]) + Flatten(c[1..])
  }

  // ----- Order and count -----

  /** Appending a family appends its entries. */
  lemma {:induction false} FlattenSnoc(c: Catalog, f: Family)
    ensures Flatten(c + [f]) == Flatten(c) + FamilyEntries(f)
  {
    if c == [] {
      assert c + [f] == [f];
    } else {
      assert (c + [f])[1..] == c[1..] + [f];
      FlattenSnoc(c[1..], f);
    }
  }

  /** Walking the first i + 1 families is walking the first i, then the sizes of family i. */
  lemma FlattenStep(c: Catalog, i: nat)
    requires i < |c|
    ensures Flatten(c[..i + 1]) == Flatten(c[..i]) + FamilyEntries(c[i])
  {
    assert c[..i + 1] == c[..i] + [c[i]];
    FlattenSnoc(c[..i], c[i]);
  }

  /**
   * Family-major order: size j of family i is visited at position
   * TotalSizes(c[..i]) + j, after every size of the families before it.
   */
  lemma {:induction false} FlattenAt(c: Catalog, i: nat, j: nat)
    requires i < |c| && j < |c[i].variants|
    ensures TotalSizes(c[..i]) + j < |Flatten(c)|
    ensures Flatten(c)[TotalSizes(c[..i]) + j] == Entry(c[i].name, c[i].variants[j].size, c[i].variants[j].roles)
  {
    if i == 0 {
      assert c[..0] == [];
    } else {
      assert c[1..][..i - 1] == c[..i][1..];
      FlattenAt(c[1..], i - 1, j);
    }
  }

  /** The entry is size j of family i for some family i of the catalog and one of its sizes j. */
  ghost predicate InCatalog(c: Catalog, e: Entry) {
    exists i, j :: 0 <= i < |c| && 0 <= j < |c[i].variants|
      && e == Entry(c[i].name, c[i].variants[j].size, c[i].variants[j].roles)
  }

  /** Every visited entry comes from some family of the catalog and one of its sizes. */
  lemma {:induction false} FlattenFrom(c: Catalog, k: nat)
    requires k < |Flatten(c)|
    ensures InCatalog(c, Flatten(c)[k])
  {
    if k < |c[0].variants| {
      assert Flatten(c)[k] == FamilyEntries(c[0])[k];
    } else {
      FlattenFrom(c[1..], k - |c[0].variants|);
      var i, j :| 0 <= i < |c[1..]| && 0 <= j < |c[1..][i].variants|
        && Flatten(c[1..])[k - |c[0].variants|] == Entry(c[1..][i].name, c[1..][i].variants[j].size, c[1..][i].variants[j].roles);
      assert c[i + 1] == c[1..][i];
      assert 0 <= i + 1 < |c| && 0 <= j < |c[i + 1].variants|;
    }
  }

  /** With unique keys, no (family, size) pair is visited twice. */
  lemma {:induction false} FlattenPairsDistinct(c: Catalog)
    requires UniqueKeys(c)
    ensures forall k, l :: 0 <= k < l < |Flatten(c)| ==>
      (Flatten(c)[k].family, Flatten(c)[k].size) != (Flatten(c)[l].family, Flatten(c)[l].size)
  {
    if c != [] {
      var head, tail := FamilyEntries(c[0]), Flatten(c[1..]);
      assert UniqueKeys(c[1..]) by {
        assert forall i :: 0 <= i < |c[1..]| ==> c[1..][i] == c[i + 1];
      }
      FlattenPairsDistinct(c[1..]);
      forall k, l | 0 <= k < l < |Flatten(c)|
        ensures (Flatten(c)[k].family, Flatten(c)[k].size) != (Flatten(c)[l].family, Flatten(c)[l].size)
      {
        if l < |head| {
          assert Flatten(c)[k] == head[k] && Flatten(c)[l] == head[l];
        } else if k < |head| {
          assert Flatten(c)[l] == tail[l - |head|];
          FlattenFrom(c[1..], l - |head|);
          var i, j :| 0 <= i < |c[1..]| && 0 <= j < |c[1..][i].variants|
            && tail[l - |head|] == Entry(c[1..][i].name, c[1..][i].variants[j].size, c[1..][i].variants[j].roles);
          assert c[1..][i] == c[i + 1];
        } else {
          assert Flatten(c)[k] == tail[k - |head|] && Flatten(c)[l] == tail[l - |head|];
        }
      }
    }
  }

  // ----- Paths -----

  /** No size label of the catalog contains a dash. */
  predicate DashFreeSizes(c: Catalog) {
    forall i, j :: 0 <= i < |c| && 0 <= j < |c[i].variants| ==> NoDash(c[i].variants[j].size)
  }

  /** With unique keys and dash-free size labels, every visited pair has a path of its own. */
  lemma FlattenPathsDistinct(c: Catalog)
    requires UniqueKeys(c) && DashFreeSizes(c)
    ensures forall k, l :: 0 <= k < l < |Flatten(c)| ==>
      BlockPath(Flatten(c)[k].family, Flatten(c)[k].size) != BlockPath(Flatten(c)[l].family, Flatten(c)[l].size)
  {
    var es := Flatten(c);
    FlattenPairsDistinct(c);
    forall k, l | 0 <= k < l < |es|
      ensures BlockPath(es[k].family, es[k].size) != BlockPath(es[l].family, es[l].size)
    {
      FlattenFrom(c, k);
      FlattenFrom(c, l);
      if BlockPath(es[k].family, es[k].size) == BlockPath(es[l].family, es[l].size) {
        BlockPathInjective(es[k].family, es[k].size, es[l].family, es[l].size);
        assert false;
      }
    }
  }

  // ----- The shipped catalog -----

  /** The family names of the shipped catalog are pairwise different. */
  lemma ModelsFamiliesUnique()
    ensures forall i, j :: 0 <= i < j < |Models| ==> Models[i].name != Models[j].name
  {
  }

  /** Within each family of the shipped catalog the size labels are pairwise different. */
  lemma ModelsSizesUnique()
    ensures forall i :: 0 <= i < |Models| ==> SizesUnique(Models[i].variants)
  {
  }

  /** The shipped catalog has unique keys, as the dictionaries it is written with guarantee. */
  lemma ModelsUniqueKeys()
    ensures UniqueKeys(Models)
  {
    ModelsFamiliesUnique();
    ModelsSizesUnique();
  }

  /** No size label of the shipped catalog contains a dash. */
  lemma ModelsDashFree()
    ensures DashFreeSizes(Models)
  {
  }

  /** Every family name of the shipped catalog is already lower-case. */
  lemma ModelsFamiliesLowerCase()
    ensures forall i :: 0 <= i < |Models| ==> IsLowerCase(Models[i].name)
  {
  }

  /** Every size label of the shipped catalog is already lower-case. */
  lemma ModelsSizesLowerCase()
    ensures forall i, j :: 0 <= i < |Models| && 0 <= j < |Models[i].variants| ==> IsLowerCase(Models[i].variants[j].size)
  {
  }

  /** No shipped family name contains a newline. */
  lemma ModelsFamiliesNoNewline()
    ensures forall i :: 0 <= i < |Models| ==> NoNewline(Models[i].name)
  {
  }

  /** No shipped size label contains a newline. */
  lemma ModelsSizesNoNewline()
    ensures forall i, j :: 0 <= i < |Models| && 0 <= j < |Models[i].variants| ==> NoNewline(Models[i].variants[j].size)
  {
  }

  /** No role of the shipped catalog contains a newline. */
  lemma ModelsRolesNoNewline()
    ensures forall i, j, r ::
      (0 <= i < |Models| && 0 <= j < |Models[i].variants| && 0 <= r < |Models[i].variants[j].roles|)
      ==> NoNewline(Models[i].variants[j].roles[r])
  {
    ModelsRoles();
    assert forall role :: role in RoleVocabulary ==> NoNewline(role);
  }

  /** The shipped catalog holds sixteen (family, size) pairs. */
  lemma ModelsCount()
    ensures TotalSizes(Models) == 16
  {
  }

  /** Every role list of the shipped catalog is non-empty and drawn from the role vocabulary. */
  lemma ModelsRoles()
    ensures forall i, j :: 0 <= i < |Models| && 0 <= j < |Models[i].variants| ==>
      Models[i].variants[j].roles != [] && forall r :: r in Models[i].variants[j].roles ==> r in RoleVocabulary
  {
  }

  /**
   * Every pair the walk over the shipped catalog visits has a lower-case,
   * newline-free family and size, and newline-free roles.
   */
  lemma ModelsEntry(k: nat)
    requires k < |Flatten(Models)|
    ensures IsLowerCase(Flatten(Models)[k].family) && IsLowerCase(Flatten(Models)[k].size)
    ensures NoNewline(Flatten(Models)[k].family) && NoNewline(Flatten(Models)[k].size)
    ensures forall r :: 0 <= r < |Flatten(Models)[k].roles| ==> NoNewline(Flatten(Models)[k].roles[r])
  {
    FlattenFrom(Models, k);
    var i, j :| 0 <= i < |Models| && 0 <= j < |Models[i].variants|
      && Flatten(Models)[k] == Entry(Models[i].name, Models[i].variants[j].size, Models[i].variants[j].roles);
    ModelsFamiliesLowerCase();
    ModelsSizesLowerCase();
    ModelsFamiliesNoNewline();
    ModelsSizesNoNewline();
    ModelsRolesNoNewline();
  }
}
