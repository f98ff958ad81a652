/**
 * The agent list kept in extension storage (src/helpers/storageHelpers.ts).
 * `chrome.storage.local` is an object with one field, the value stored
 * under the `agents` key; every write replaces that value whole.
 */
module AgentStorage {

  import opened Wrappers
  import opened Schema

  /**
   * The value `upsertAgent` receives from `chrome.storage.local.get('agents')`,
   * told apart the way `Array.isArray` tells it: an array, or an object
   * (the items object, which holds `agents` when that key is stored).
   */
  datatype Persisted = AgentArray(items: seq<BaseAgent>) | ItemsObject(agents: Option<seq<BaseAgent>>)

  /** `chrome.storage.local`, reduced to its `agents` key. */
  class LocalStorage {
    var agents: Option<seq<BaseAgent>>

    constructor ()
      ensures agents == None
    {
      agents := None;
    }

    /** `get('agents')` resolves to the items object, never to an array. */
    function Get(): (p: Persisted)
      reads this
      ensures p.ItemsObject? && p.agents == agents
    {
      ItemsObject(agents)
    }

    /** `set({ agents: list })`. */
    method Set(list: seq<BaseAgent>)
      modifies this
      ensures agents == Some(list)
    {
      agents := Some(list);
    }
  }

  /** Lines 7-10: the list `upsertAgent` starts from. */
  function StartingList(p: Persisted): (list: seq<BaseAgent>)
    ensures p.AgentArray? ==> list == p.items
    ensures !p.AgentArray? ==> list == []
  {
    if p.AgentArray? then p.items else []
  }

  /** `list.find((a) => a.name === name)`: the first agent with exactly that name. */
  function FindByName(list: seq<BaseAgent>, name: string): (found: Option<BaseAgent>)
    ensures found.Some? <==> exists a :: a in list && a.name == name
    ensures found.Some? ==>
              exists i :: 0 <= i < |list| && list[i] == found.value && found.value.name == name &&
                forall j :: 0 <= j < i ==> list[j].name != name
  {
    if list == [] then None
    else if list[0].name == name then Some(list[0])
    else FindByName(list[1..], name)
  }

  /**
   * Lines 11-16: nothing to write when the name is taken, otherwise the
   * list with the agent pushed at its end.
   */
  function AddIfAbsent(list: seq<BaseAgent>, agent: BaseAgent): (added: Option<seq<BaseAgent>>)
    ensures added.None? <==> exists a :: a in list && a.name == agent.name
    ensures added.Some? ==> added.value == list + [agent]
  {
    if FindByName(list, agent.name).Some? then None else Some(list + [agent])
  }

  predicate NamesUnique(list: seq<BaseAgent>)
  {
    forall i, j :: 0 <= i < j < |list| ==> list[i].name != list[j].name
  }

  /** Adding to a list whose names are unique keeps them unique. */
  lemma AddIfAbsentKeepsNamesUnique(list: seq<BaseAgent>, agent: BaseAgent)
    requires NamesUnique(list)
    ensures AddIfAbsent(list, agent).Some? ==> NamesUnique(AddIfAbsent(list, agent).value)
  {
  }

  /** `persisted?.agents || []` (line 30). */
  function StoredAgents(p: Persisted): (list: seq<BaseAgent>)
    ensures p.ItemsObject? && p.agents.Some? ==> list == p.agents.value
    ensures !(p.ItemsObject? && p.agents.Some?) ==> list == []
  {
    match p
    case ItemsObject(Some(agents)) => agents
    case _ => []
  }

  /**
   * `upsertAgent` as written: it tests the items object with
   * `Array.isArray`, so it always starts from the empty list.
   */
  method UpsertAgent(store: LocalStorage, agent: BaseAgent, returning: bool) returns (result: Option<seq<BaseAgent>>)
    modifies store
    ensures var written := AddIfAbsent(StartingList(old(store.Get())), agent);
      (written.None? ==> store.agents == old(store.agents) && result == None) &&
      (written.Some? ==> store.agents == written && result == if returning then written else None)
    ensures store.agents == Some([agent]) && result == if returning then Some([agent]) else None
  {
    var persisted := store.Get();
    var list := StartingList(persisted);
    if FindByName(list, agent.name).Some? {
      return None;
    }
    list := list + [agent];
    assert list == [agent];
    store.Set(list);
    if returning {
      return Some(list);
    }
    return None;
  }

  /**
   * What `upsertAgent` writes, as a function of what is stored: whatever
   * was stored before, the new list holds the new agent alone.
   */
  lemma UpsertAgentOverwritesStore(stored: Option<seq<BaseAgent>>, agent: BaseAgent)
    ensures AddIfAbsent(StartingList(ItemsObject(stored)), agent) == Some([agent])
    ensures stored.Some? && |stored.value| > 0 ==>
              AddIfAbsent(StoredAgents(ItemsObject(stored)), agent) != Some([agent])
  {
    assert [] + [agent] == [agent];
  }

  /**
   * `upsertAgent` reading the stored list the way `getStoredAgents` does:
   * an agent whose name is new is appended to what was stored.
   */
  method UpsertAgentKeepingStored(store: LocalStorage, agent: BaseAgent, returning: bool)
    returns (result: Option<seq<BaseAgent>>)
    modifies store
    ensures var before := StoredAgents(old(store.Get()));
      var written := AddIfAbsent(before, agent);
      (written.None? ==> store.agents == old(store.agents) && result == None) &&
      (written.Some? ==> store.agents == Some(before + [agent]) && result == if returning then written else None)
    ensures NamesUnique(StoredAgents(old(store.Get()))) ==> NamesUnique(StoredAgents(store.Get()))
  {
    var persisted := store.Get();
    var list := StoredAgents(persisted);
    if NamesUnique(list) {
      AddIfAbsentKeepsNamesUnique(list, agent);
    }
    if FindByName(list, agent.name).Some? {
      return None;
    }
    list := list + [agent];
    store.Set(list);
    if returning {
      return Some(list);
    }
    return None;
  }

  /** `replaceAgents`: the given list is stored as it is. */
  method ReplaceAgents(store: LocalStorage, agents: seq<BaseAgent>)
    modifies store
    ensures store.agents == Some(agents)
  {
    store.Set(agents);
  }

  /** `getStoredAgents`: the stored list, or `[]` when none is stored. */
  method GetStoredAgents(store: LocalStorage) returns (agents: seq<BaseAgent>)
    ensures store.agents.Some? ==> agents == store.agents.value
    ensures store.agents.None? ==> agents == []
  {
    agents := StoredAgents(store.Get());
  }
}
