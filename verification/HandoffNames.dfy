/**
  The checks of preflight that span agents (agentcheck/adapters/openai_agents.py): no two
  reachable agents share a name, a tool name means one contract everywhere, and the names
  of handoffs collide neither with each other nor with tools.
 */
module HandoffNames {
  import opened Bags
  import opened HandoffGraph

  /** The contract of the first tool of that name. */
  function ContractIn(tools: seq<Tool>, name: string): (r: Option<string>) {
    if tools == [] then None
    else if tools[0].name == name then Some(tools[0].contract)
    else ContractIn(tools[1..], name)
  }

  /** No agent has problems of its own, and no two share a name. */
  ghost predicate OwnNames(agents: set<Agent>) {
    (forall a :: a in agents ==> a.problems == [])
    && forall a, b :: a in agents && b in agents && a.name == b.name ==> a == b
  }

  ghost predicate SameContract(a: Agent, b: Agent, name: string) {
    ContractIn(a.tools, name).Some? && ContractIn(b.tools, name).Some? ==>
      ContractIn(a.tools, name).value == ContractIn(b.tools, name).value
  }

  /** A tool name means one contract. */
  ghost predicate OneContract(agents: set<Agent>) {
    forall a, b, name :: a in agents && b in agents ==> SameContract(a, b, name)
  }

  /** An agent hands off under distinct names. */
  ghost predicate DistinctHandoffs(a: Agent)
    reads a
  {
    forall k, l :: 0 <= k < l < |a.handoffs| && a.handoffs[k].toolName.Some? ==> a.handoffs[k].toolName != a.handoffs[l].toolName
  }

  ghost predicate HandoffsApart(agents: set<Agent>)
    reads agents
  {
    forall a :: a in agents ==> DistinctHandoffs(a)
  }

  ghost predicate IsToolName(agents: set<Agent>, name: string) {
    exists a :: a in agents && ContractIn(a.tools, name).Some?
  }

  /** No handoff is named like a tool of any agent. */
  ghost predicate NoneNamedAsTool(agents: set<Agent>)
    reads agents
  {
    forall a, k :: a in agents && 0 <= k < |a.handoffs| && a.handoffs[k].toolName.Some? ==>
      !IsToolName(agents, a.handoffs[k].toolName.value)
  }

  /** Nothing about names is ambiguous among these agents. */
  ghost predicate Unambiguous(agents: set<Agent>)
    reads agents
  {
    OwnNames(agents) && OneContract(agents) && HandoffsApart(agents) && NoneNamedAsTool(agents)
  }

  function Members(agents: seq<Agent>): (r: set<Agent>) { set a | a in agents }

  lemma {:induction false} MembersPush(agents: seq<Agent>, i: nat)
    requires i < |agents|
    ensures Members(agents[..i + 1]) == Members(agents[..i]) + {agents[i]}
    ensures Members(agents[..i + 1]) <= Members(agents)
    ensures Distinct(agents) ==> agents[i] !in Members(agents[..i])
  {
    assert agents[..i + 1] == agents[..i] + [agents[i]];
  }

  lemma {:induction false} AllMembers(agents: seq<Agent>)
    ensures Members(agents[..|agents|]) == Members(agents)
  {
    assert agents[..|agents|] == agents;
  }

  // ---------------------------------------------------------------------------
  // The agents
  // ---------------------------------------------------------------------------

  ghost predicate NamesOf(agents: set<Agent>, names: set<string>) {
    forall name :: name in names <==> exists a :: a in agents && a.name == name
  }

  lemma {:induction false} OwnNamesPush(agents: set<Agent>, names: set<string>, a: Agent)
    requires OwnNames(agents) && NamesOf(agents, names) && a !in agents
    ensures OwnNames(agents + {a}) <==> a.problems == [] && a.name !in names
    ensures NamesOf(agents + {a}, names + {a.name})
  {
    if a.name in names {
      var b :| b in agents && b.name == a.name;
      assert b in agents + {a} && a in agents + {a};
    }
  }

  lemma {:induction false} OwnNamesFewer(agents: set<Agent>, more: set<Agent>)
    requires agents <= more
    ensures OwnNames(more) ==> OwnNames(agents)
  {
  }

  method CheckAgents(agents: seq<Agent>) returns (ok: bool)
    requires Distinct(agents)
    ensures ok <==> OwnNames(Members(agents))
  {
    var names: set<string> := {};
    for i := 0 to |agents|
      invariant OwnNames(Members(agents[..i])) && NamesOf(Members(agents[..i]), names)
    {
      MembersPush(agents, i);
      OwnNamesPush(Members(agents[..i]), names, agents[i]);
      if agents[i].problems != [] || agents[i].name in names {
        OwnNamesFewer(Members(agents[..i + 1]), Members(agents));
        return false;
      }
      names := names + {agents[i].name};
    }
    AllMembers(agents);
    ok := true;
  }

  // ---------------------------------------------------------------------------
  // The tools
  // ---------------------------------------------------------------------------

  /** The contracts of all tools of the agents, by name. */
  ghost predicate Contracts(agents: set<Agent>, table: map<string, string>) {
    (forall a, name :: a in agents && ContractIn(a.tools, name).Some? ==>
       name in table && table[name] == ContractIn(a.tools, name).value)
    && forall name :: name in table ==> IsToolName(agents, name)
  }

  /** The table with the tools of one more agent. */
  ghost predicate Extended(before: map<string, string>, tools: seq<Tool>, after: map<string, string>) {
    (forall name :: name in after <==> name in before || ContractIn(tools, name).Some?)
    && (forall name :: name in before ==> after[name] == before[name])
    && forall name :: ContractIn(tools, name).Some? ==> after[name] == ContractIn(tools, name).value
  }

  /** Every tool agrees with the table. */
  ghost predicate Agrees(table: map<string, string>, tools: seq<Tool>) {
    forall name :: name in table && ContractIn(tools, name).Some? ==> table[name] == ContractIn(tools, name).value
  }

  lemma {:induction false} ContractPush(tools: seq<Tool>, t: Tool, name: string)
    ensures ContractIn(tools + [t], name)
         == if ContractIn(tools, name).Some? then ContractIn(tools, name)
            else if t.name == name then Some(t.contract) else None
  {
    if tools == [] {
      assert [] + [t] == [t];
    } else {
      assert (tools + [t])[1..] == tools[1..] + [t];
      ContractPush(tools[1..], t, name);
    }
  }

  lemma {:induction false} ContractKept(tools: seq<Tool>, i: nat, name: string)
    requires i <= |tools| && ContractIn(tools[..i], name).Some?
    ensures ContractIn(tools, name) == ContractIn(tools[..i], name)
  {
    if i > 0 && tools[0].name != name {
      assert tools[..i][1..] == tools[1..][..i - 1];
      ContractKept(tools[1..], i - 1, name);
    }
  }

  ghost predicate LocalNames(tools: seq<Tool>, names: set<string>) {
    forall name :: name in names <==> ContractIn(tools, name).Some?
  }

  /** What is known after some of the tools of one agent. */
  ghost predicate Added(table: map<string, string>, tools: seq<Tool>, names: set<string>, after: map<string, string>) {
    LocalNames(tools, names) && Agrees(table, tools) && Extended(table, tools, after)
  }

  /** A repeated name changes nothing. */
  lemma {:induction false} PassOver(
    table: map<string, string>, tools: seq<Tool>, t: Tool, names: set<string>, after: map<string, string>
  )
    requires Added(table, tools, names, after) && t.name in names
    ensures Added(table, tools + [t], names, after)
  {
    forall name ensures ContractIn(tools + [t], name) == ContractIn(tools, name) { ContractPush(tools, t, name); }
  }

  /** A new name agrees with the table, or it does not. */
  lemma {:induction false} EnterTool(
    table: map<string, string>, tools: seq<Tool>, t: Tool, names: set<string>, after: map<string, string>
  )
    requires Added(table, tools, names, after) && t.name !in names
    ensures t.name in after && after[t.name] != t.contract ==> !Agrees(table, tools + [t])
    ensures !(t.name in after && after[t.name] != t.contract) ==>
      Added(table, tools + [t], names + {t.name}, after[t.name := t.contract])
  {
    forall name ensures ContractIn(tools + [t], name) == if name == t.name then Some(t.contract) else ContractIn(tools, name) {
      ContractPush(tools, t, name);
    }
  }

  lemma {:induction false} AgreesFewer(table: map<string, string>, tools: seq<Tool>, i: nat)
    requires i <= |tools| && Agrees(table, tools)
    ensures Agrees(table, tools[..i])
  {
    forall name | name in table && ContractIn(tools[..i], name).Some? ensures table[name] == ContractIn(tools[..i], name).value {
      ContractKept(tools, i, name);
    }
  }

  /** The tools of one agent: a repeated name is passed over, a new one is entered or compared. */
  method AddTools(table: map<string, string>, tools: seq<Tool>) returns (ok: bool, after: map<string, string>)
    ensures ok <==> Agrees(table, tools)
    ensures ok ==> Extended(table, tools, after)
  {
    after := table;
    var names: set<string> := {};
    for i := 0 to |tools|
      invariant Added(table, tools[..i], names, after)
    {
      var t := tools[i];
      assert tools[..i + 1] == tools[..i] + [t];
      if t.name in names {
        PassOver(table, tools[..i], t, names, after);
      } else {
        EnterTool(table, tools[..i], t, names, after);
        if t.name in after && after[t.name] != t.contract {
          if Agrees(table, tools) {
            AgreesFewer(table, tools, i + 1);
            assert false;
          }
          return false, after;
        }
        after := after[t.name := t.contract];
        names := names + {t.name};
      }
    }
    assert tools[..|tools|] == tools;
    ok := true;
  }

  lemma {:induction false} ContractsPush(
    agents: set<Agent>, table: map<string, string>, a: Agent, after: map<string, string>
  )
    requires Contracts(agents, table)
    ensures !Agrees(table, a.tools) ==> !OneContract(agents + {a})
    ensures Agrees(table, a.tools) && Extended(table, a.tools, after) ==> Contracts(agents + {a}, after)
  {
    if !Agrees(table, a.tools) {
      var name :| name in table && ContractIn(a.tools, name).Some? && table[name] != ContractIn(a.tools, name).value;
      var b :| b in agents && ContractIn(b.tools, name).Some?;
      assert !SameContract(b, a, name);
      assert b in agents + {a} && a in agents + {a};
    }
    if Agrees(table, a.tools) && Extended(table, a.tools, after) {
      ContractsExtended(agents, table, a, after);
    }
  }

  lemma {:induction false} ContractsExtended(
    agents: set<Agent>, table: map<string, string>, a: Agent, after: map<string, string>
  )
    requires Contracts(agents, table) && Agrees(table, a.tools) && Extended(table, a.tools, after)
    ensures Contracts(agents + {a}, after)
  {
    forall name | name in after ensures IsToolName(agents + {a}, name) {
      if name in table {
        var b :| b in agents && ContractIn(b.tools, name).Some?;
        assert b in agents + {a};
      } else {
        assert a in agents + {a};
      }
    }
  }

  lemma {:induction false} ContractsAgree(agents: set<Agent>, table: map<string, string>)
    requires Contracts(agents, table)
    ensures OneContract(agents)
  {
    forall a, b, name | a in agents && b in agents ensures SameContract(a, b, name) {
      if ContractIn(a.tools, name).Some? && ContractIn(b.tools, name).Some? {
        assert table[name] == ContractIn(a.tools, name).value;
        assert table[name] == ContractIn(b.tools, name).value;
      }
    }
  }

  lemma {:induction false} OneContractFewer(agents: set<Agent>, more: set<Agent>)
    requires agents <= more
    ensures OneContract(more) ==> OneContract(agents)
  {
  }

  method CheckTools(agents: seq<Agent>) returns (ok: bool, table: map<string, string>)
    ensures ok <==> OneContract(Members(agents))
    ensures ok ==> Contracts(Members(agents), table)
  {
    table := map[];
    for i := 0 to |agents|
      invariant Contracts(Members(agents[..i]), table)
    {
      var agrees, after := AddTools(table, agents[i].tools);
      MembersPush(agents, i);
      ContractsPush(Members(agents[..i]), table, agents[i], after);
      if !agrees {
        OneContractFewer(Members(agents[..i + 1]), Members(agents));
        return false, table;
      }
      table := after;
    }
    AllMembers(agents);
    ContractsAgree(Members(agents), table);
    ok := true;
  }

  // ---------------------------------------------------------------------------
  // The handoffs
  // ---------------------------------------------------------------------------

  method CheckHandoffs(a: Agent) returns (ok: bool)
    ensures ok <==> DistinctHandoffs(a)
  {
    var names: set<string> := {};
    for k := 0 to |a.handoffs|
      invariant forall i, j :: 0 <= i < j < k && a.handoffs[i].toolName.Some? ==> a.handoffs[i].toolName != a.handoffs[j].toolName
      invariant forall name :: name in names <==> exists i :: 0 <= i < k && a.handoffs[i].toolName == Some(name)
    {
      if a.handoffs[k].toolName.Some? {
        if a.handoffs[k].toolName.value in names { return false; }
        names := names + {a.handoffs[k].toolName.value};
      }
    }
    ok := true;
  }

  method CheckAllHandoffs(agents: seq<Agent>) returns (ok: bool)
    ensures ok <==> HandoffsApart(Members(agents))
  {
    for i := 0 to |agents|
      invariant forall j :: 0 <= j < i ==> DistinctHandoffs(agents[j])
    {
      var own := CheckHandoffs(agents[i]);
      if !own { return false; }
    }
    ok := true;
  }

  method CheckCollisions(agents: seq<Agent>, table: map<string, string>) returns (ok: bool)
    requires Contracts(Members(agents), table)
    ensures ok <==> NoneNamedAsTool(Members(agents))
  {
    for i := 0 to |agents|
      invariant forall j, k :: 0 <= j < i && 0 <= k < |agents[j].handoffs| && agents[j].handoffs[k].toolName.Some? ==>
        agents[j].handoffs[k].toolName.value !in table
    {
      for k := 0 to |agents[i].handoffs|
        invariant forall l :: 0 <= l < k && agents[i].handoffs[l].toolName.Some? ==> agents[i].handoffs[l].toolName.value !in table
      {
        if agents[i].handoffs[k].toolName.Some? && agents[i].handoffs[k].toolName.value in table { return false; }
      }
    }
    ok := true;
  }

  /** The checks over all listed agents. */
  method CheckNames(agents: seq<Agent>) returns (ok: bool)
    requires Distinct(agents)
    ensures ok <==> Unambiguous(Members(agents))
  {
    ok := CheckAgents(agents);
    if !ok { return; }
    var table;
    ok, table := CheckTools(agents);
    if !ok { return; }
    ok := CheckAllHandoffs(agents);
    if !ok { return; }
    ok := CheckCollisions(agents, table);
  }
}
