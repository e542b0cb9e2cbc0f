/** The dialogue manager object: the two maps its mutex protects, and the critical sections
    that change them, each proved to be a step of the opening protocol. */
module DialogueRegistry {
  import opened Options
  import opened DialogueFsm
  import opened Opening
  import opened Routing

  class DialogueMgr {
    const client: bool
    var mgrOK: bool
    var dialogues: map<nat, nat>             // dialogue id to object
    var negotiatingDialogues: map<nat, nat>  // negotiating id to object
    var objects: map<nat, Dlg>               // the dialogue objects, by negotiating id

    ghost function View(): Mgr
      reads this
    {
      Mgr(mgrOK, objects.Keys, objects, dialogues, negotiatingDialogues.Keys)
    }

    /** What holds whenever the mutex is free: every key is the id of the object it leads to,
        no object is both ready and negotiating, and a manager that has ended has nothing
        ready. */
    ghost predicate Valid()
      reads this
    {
      Registry(View()) && Keyed()
    }

    ghost predicate Keyed()
      reads this
    {
      forall n :: n in negotiatingDialogues ==> negotiatingDialogues[n] == n
    }

    /** A new manager has the default dialogue ready. */
    constructor (client: bool)
      ensures Valid() && View() == NEW_MGR && this.client == client
      ensures mgrOK && dialogues == map[1 := 1] && negotiatingDialogues == map[] && objects.Keys == {1}
    {
      this.client := client;
      mgrOK, dialogues, negotiatingDialogues := true, map[DEFAULT_ID := DEFAULT_ID], map[];
      objects := map[DEFAULT_ID := DEFAULT_DLG];
    }

    /** handlePkt for an incoming session packet: a new object under a fresh id, found there unless
        another is registered under it. */
    method AcceptSession(m: Msg, n: nat)
      requires Valid() && m.Session? && n !in objects
      modifies this
      ensures Valid() && View() == Do(old(View()), client, multiset{m}, RecvSession(m, n))
      ensures n !in dialogues ==> Lookup(View(), n) == Some(n)
    {
      ghost var x := View();
      ghost var x' := Do(x, client, multiset{m}, RecvSession(m, n));
      assert Registry(x') by {
        RecvSessionMoves(x, client, multiset{m}, m, n);
      }
      NegotiatingFound(x, client, multiset{m}, RecvSession(m, n));
      Enter(n, Dlg(Acceptor, SessionRecv, m.neg, if m.acquire then n else m.neg, false, None, false));
      assert View() == x' by {
        assert View().minted == x'.minted && View().dlgs == x'.dlgs && View().negotiating == x'.negotiating;
      }
    }

    method Enter(n: nat, dg: Dlg)
      requires Keyed()
      modifies `objects, `negotiatingDialogues
      ensures Keyed()
      ensures objects == old(objects)[n := dg] && negotiatingDialogues == old(negotiatingDialogues)[n := n]
    {
      objects := objects[n := dg];
      negotiatingDialogues := negotiatingDialogues[n := n];
    }

    /** DialogueOnline with the transition around it; `ok` is that no error was returned, and the
        dialogue is then found under its id. */
    method DialogueOnline(n: nat) returns (ok: bool)
      requires Valid() && Can(View(), multiset{}, SendAck(n))
      modifies this
      ensures ok == old(mgrOK) && Valid()
      ensures View() == Do(old(View()), client, multiset{}, SendAck(n))
      ensures ok ==> Routed(View(), n)
    {
      ghost var x := View();
      SendAckMoves(x, client, multiset{}, n);
      if mgrOK {
        OnlineRoutes(x, client, multiset{}, n);
      }
      ok := Online(n);
      assert View() == Do(x, client, multiset{}, SendAck(n));
    }

    method Online(n: nat) returns (ok: bool)
      requires Keyed() && n in objects
      modifies `objects, `negotiatingDialogues, `dialogues
      ensures Keyed() && ok == mgrOK
      ensures if ok then objects == old(objects)[n := old(objects[n]).(st := Sessioned)]
                         && negotiatingDialogues == old(negotiatingDialogues) - {n}
                         && dialogues == old(dialogues)[old(objects[n]).did := n]
              else objects == old(objects)[n := old(objects[n]).(refused := true, closed := true)]
                   && negotiatingDialogues == old(negotiatingDialogues) && dialogues == old(dialogues)
    {
      var dg := objects[n];
      if !mgrOK {
        objects := objects[n := dg.(refused := true, closed := true)];
        return false;
      }
      if n in negotiatingDialogues {
        negotiatingDialogues := negotiatingDialogues - {n};
      }
      objects := objects[n := dg.(st := Sessioned)];
      dialogues := dialogues[dg.did := n];
      return true;
    }

    /** The last part of OpenDialogue, once open has returned without error. */
    method OpenDialogueDone(n: nat) returns (ok: bool)
      requires Valid() && Can(View(), multiset{}, OpenDone(n))
      modifies this
      ensures ok == old(mgrOK) && Valid()
      ensures View() == Do(old(View()), client, multiset{}, OpenDone(n))
      ensures ok ==> Routed(View(), n)
    {
      if mgrOK {
        OpenDoneRoutes(View(), client, multiset{}, n);
      }
      negotiatingDialogues := negotiatingDialogues - {n};
      if !mgrOK {
        return false;
      }
      dialogues := dialogues[objects[n].did := n];
      return true;
    }

    method DialogueOffline(n: nat) returns (found: bool)
      requires Valid() && n in objects
      modifies this
      ensures found == (old(objects[n].did) in old(dialogues)) && Valid()
      ensures View() == Do(old(View()), client, multiset{}, Offline(n))
      ensures objects == old(objects) && dialogues.Keys == old(dialogues.Keys) - {objects[n].did}
    {
      var dialogueID := objects[n].did;
      found := dialogueID in dialogues;
      if found {
        dialogues := dialogues - {dialogueID};
      }
    }

    /** handlePkt's lookup by the id stamped on a packet. */
    method Find(dialogueID: nat) returns (r: Option<nat>)
      requires Valid()
      ensures r == Lookup(View(), dialogueID)
      ensures dialogueID in dialogues ==> r == Some(dialogues[dialogueID])
      ensures dialogueID !in dialogues && dialogueID in negotiatingDialogues ==> r == Some(dialogueID)
      ensures r == None ==> dialogueID !in dialogues && dialogueID !in negotiatingDialogues
    {
      if dialogueID in dialogues {
        return Some(dialogues[dialogueID]);
      }
      if dialogueID in negotiatingDialogues {
        return Some(negotiatingDialogues[dialogueID]);
      }
      return None;
    }

    /** fini: both maps are emptied, closing the IO of every object in them. */
    method Fini() returns (closed: set<nat>)
      requires Valid()
      modifies this
      ensures Valid() && View() == Do(old(View()), client, multiset{}, Shutdown)
      ensures closed == old(dialogues.Values + negotiatingDialogues.Values)
    {
      mgrOK := false;
      var ready, negotiating;
      dialogues, ready := CloseAll(dialogues);
      negotiatingDialogues, negotiating := CloseAll(negotiatingDialogues);
      closed := ready + negotiating;
    }
  }

  /** An incoming session packet, the answer to it, and a packet for the new dialogue, which is
      found under the id that the answer carries. Once the dialogue has gone, its id leads to
      nobody, or to whoever negotiates under that number. */
  method AcceptThenFind(mgr: DialogueMgr, m: Msg, n: nat) returns (r: Option<nat>, gone: Option<nat>)
    requires mgr.Valid() && mgr.mgrOK && m.Session? && n !in mgr.objects
    modifies mgr
    ensures r == Some(n) && mgr.Valid() && n in mgr.objects
    ensures gone == if mgr.objects[n].did in mgr.negotiatingDialogues then Some(mgr.objects[n].did) else None
  {
    mgr.AcceptSession(m, n);
    var ok := mgr.DialogueOnline(n);
    r := mgr.Find(mgr.objects[n].did);
    var found := mgr.DialogueOffline(n);
    gone := mgr.Find(mgr.objects[n].did);
  }

  lemma {:induction false} DropKey(m: map<nat, nat>, id: nat)
    requires id in m
    ensures m.Values == (m - {id}).Values + {m[id]} && |m - {id}| < |m|
  {
    var rest := m - {id};
    assert forall k :: k in m ==> k == id || (k in rest && rest[k] == m[k]);
    assert m.Keys == rest.Keys + {id};
  }

  /** One range loop of fini: visit, close and delete every entry. */
  method CloseAll(entries: map<nat, nat>) returns (left: map<nat, nat>, closed: set<nat>)
    ensures left == map[] && closed == entries.Values
  {
    left, closed := entries, {};
    while left != map[]
      invariant closed + left.Values == entries.Values
      decreases |left|
    {
      var id :| id in left;
      DropKey(left, id);
      closed, left := closed + {left[id]}, left - {id};
    }
  }
}
