// Who is who in a backplane: processes, and the components inside them.
module Names {
  import opened Text

  /** FTB_location_id_t: a process, by host, start time and process id. */
  datatype Location = Location(hostname: string, startTime: string, pid: int)

  /** FTB_id_t without the region, which no comparison reads. */
  datatype Id = Id(loc: Location, compCat: string, comp: string, clientName: string, ext: int)

  const BACKPLANE := "ftb_comp_cat_backplane"
  const MANAGER := "ftb_comp_manager"

  /** The name every FTB manager library uses, in agents and in client processes. */
  predicate ManagerName(id: Id) {
    EqFold(id.compCat, BACKPLANE) && EqFold(id.comp, MANAGER)
  }

  /** The test FTBMI_util_reg_propagation makes to find its neighbour agents. */
  predicate IsAgent(id: Id) {
    ManagerName(id) && id.ext == 0
  }

  /** The id under which the agent of a process is known to its neighbours. */
  function AgentId(loc: Location): (id: Id)
    ensures IsAgent(id) && id.loc == loc
  {
    Id(loc, BACKPLANE, MANAGER, "", 0)
  }

  /** FTBU_is_equal_location_id and FTBU_is_equal_ftb_id on the texts as sent. */
  predicate EqualLocation(a: Location, b: Location) {
    && a.pid == b.pid
    && EqFold(a.hostname, b.hostname)
    && EqFold(a.startTime, b.startTime)
  }

  predicate EqualId(a: Id, b: Id) {
    && EqFold(a.compCat, b.compCat)
    && EqFold(a.comp, b.comp)
    && EqFold(a.clientName, b.clientName)
    && a.ext == b.ext
    && EqualLocation(a.loc, b.loc)
  }

  function FoldLocation(l: Location): Location {
    Location(Fold(l.hostname), Fold(l.startTime), l.pid)
  }

  function FoldId(id: Id): Id {
    Id(FoldLocation(id.loc), Fold(id.compCat), Fold(id.comp), Fold(id.clientName), id.ext)
  }

  /** Two ids are the same key of a peer table exactly when their representatives
      are the same value; the other modules use representatives, and == on them. */
  lemma EqualIdIsFoldEquality(a: Id, b: Id)
    ensures EqualId(a, b) <==> FoldId(a) == FoldId(b)
    ensures EqualLocation(a.loc, b.loc) <==> FoldId(a).loc == FoldId(b).loc
  {
    EqFoldIsFoldEquality(a.compCat, b.compCat);
    EqFoldIsFoldEquality(a.comp, b.comp);
    EqFoldIsFoldEquality(a.clientName, b.clientName);
    EqFoldIsFoldEquality(a.loc.hostname, b.loc.hostname);
    EqFoldIsFoldEquality(a.loc.startTime, b.loc.startTime);
  }

  /** The id FTBM_Init gives the manager library of a process: leaf is 0 in an agent, and 1
      in a client process. */
  function Self(loc: Location, leaf: int): Id {
    Id(loc, "FTB_COMP_CAT_BACKPLANE", "FTB_COMP_MANAGER", "", leaf)
  }

  /** Of the manager libraries those of agents, and no others, are taken for neighbour
      agents; and an agent's is listed under the id its neighbours know it by. */
  lemma SelfIsAgentExactly(loc: Location, leaf: int)
    ensures ManagerName(FoldId(Self(loc, leaf)))
    ensures IsAgent(FoldId(Self(loc, leaf))) <==> leaf == 0
    ensures FoldId(Self(loc, 0)) == AgentId(FoldLocation(loc))
  {
    var category, name := "FTB_COMP_CAT_BACKPLANE", "FTB_COMP_MANAGER";
    assert Fold(category) == BACKPLANE;
    assert Fold(name) == MANAGER;
    EqFoldIsFoldEquality(category, BACKPLANE);
    EqFoldIsFoldEquality(name, MANAGER);
    assert Fold("") == "";
  }

  /** No component is taken for an agent but those that bear both names and ext 0. */
  lemma AgentsExactly(id: Id)
    ensures IsAgent(FoldId(id)) <==>
            EqFold(id.compCat, "FTB_COMP_CAT_BACKPLANE") && EqFold(id.comp, "FTB_COMP_MANAGER") && id.ext == 0
  {
    ManagersExactly(id);
  }

  lemma ManagersExactly(id: Id)
    ensures ManagerName(FoldId(id)) <==>
            EqFold(id.compCat, "FTB_COMP_CAT_BACKPLANE") && EqFold(id.comp, "FTB_COMP_MANAGER")
  {
    SelfIsAgentExactly(id.loc, 0);
    EqFoldIsFoldEquality(id.compCat, "FTB_COMP_CAT_BACKPLANE");
    EqFoldIsFoldEquality(id.comp, "FTB_COMP_MANAGER");
    EqFoldIsFoldEquality(Fold(id.compCat), BACKPLANE);
    EqFoldIsFoldEquality(Fold(id.comp), MANAGER);
    FoldTwice(id.compCat);
    FoldTwice(id.comp);
  }

  lemma FoldTwice(s: string)
    ensures Fold(Fold(s)) == Fold(s)
  {
  }
}
