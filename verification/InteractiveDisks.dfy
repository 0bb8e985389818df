/**
 Choosing disks interactively: `askLocalPool` and after it `askRemotePool`. A table answers with any rows among those it
 shows; whatever the user is asked is answered arbitrarily, and may be asked again any number of times.
 */
module InteractiveDisks {
  import opened Services
  import opened FiniteSets
  import opened DiskFilters

  // A row of the table, without the columns that only inform.
  datatype Row = Row(location: string, path: string)

  // What is known about a system: its unused disks by ID, and whether it has, or could have, each pool.
  datatype Info = Info(available: map<string, Disk>, hasLocal: bool, supportsLocal: bool, hasRemote: bool,
                       supportsRemote: bool, hasRemoteFS: bool, supportsRemoteFS: bool)

  // What a system is configured with: the sources of its local pool, and its MicroCeph disks.
  datatype System = System(localSources: seq<string>, cephDisks: seq<Post>)

  datatype Outcome = Error | Skipped | Configured(selected: map<string, string>)

  type State = map<string, Info>

  function Paths(available: map<string, Disk>): set<string> {
    set id | id in available :: FormatDiskPath(available[id])
  }

  function AskedLocal(state: State): set<string> {
    set p | p in state && !state[p].hasLocal
  }

  function AskedRemote(state: State): set<string> {
    set p | p in state && !state[p].hasRemote
  }

  /** The row shows an unused disk of one of the systems. */
  predicate Offered(state: State, systems: set<string>, row: Row) {
    row.location in systems && row.location in state && row.path in Paths(state[row.location].available)
  }

  /** The rows of the table: every unused disk of the systems. */
  method Offer(state: State, systems: set<string>) returns (rows: seq<Row>)
    requires systems <= state.Keys
    ensures forall row :: row in rows <==> Offered(state, systems, row)
  {
    rows := [];
    var done: set<string> := {};
    while done != systems
      invariant done <= systems && forall row :: row in rows <==> Offered(state, done, row)
      decreases systems - done
    {
      var p :| p in systems && p !in done;
      var more := RowsOf(p, state[p].available);
      forall row ensures row in rows + more <==> Offered(state, done + {p}, row) {
        assert row in rows + more <==> row in rows || row in more;
      }
      rows := rows + more;
      done := done + {p};
    }
  }

  method RowsOf(p: string, available: map<string, Disk>) returns (rows: seq<Row>)
    ensures forall row :: row in rows <==> row.location == p && row.path in Paths(available)
  {
    rows := [];
    var done: set<string> := {};
    while done != available.Keys
      invariant done <= available.Keys
      invariant forall row :: row in rows <==>
                  row.location == p && exists id :: id in done && FormatDiskPath(available[id]) == row.path
      decreases available.Keys - done
    {
      var id :| id in available && id !in done;
      var one := Row(p, FormatDiskPath(available[id]));
      forall row ensures row in rows + [one] <==>
          row.location == p && exists k :: k in done + {id} && FormatDiskPath(available[k]) == row.path
      {
        assert row in rows + [one] <==> row in rows || row == one;
        if row == one { assert id in done + {id}; }
      }
      rows := rows + [one];
      done := done + {id};
    }
  }

  /** Shows a table; the answer is any of its rows. */
  method Render(rows: seq<Row>) returns (ok: bool, answers: seq<Row>)
    ensures forall row :: row in answers ==> row in rows
  {
    ok := *;
    answers :| forall row :: row in answers ==> row in rows;
  }

  // ---- Local storage -----------------------------------------------------------------------------------------------

  /** One disk for each of the systems, among those offered. */
  ghost predicate OneEach(state: State, asked: set<string>, selected: map<string, string>) {
    && selected.Keys == asked <= state.Keys
    && forall p :: p in asked ==> selected[p] in Paths(state[p].available)
  }

  /** One attempt at selecting local disks. */
  method SelectLocal(state: State, asked: set<string>, rows: seq<Row>) returns (ok: bool, selected: map<string, string>)
    requires asked <= state.Keys && forall row :: row in rows <==> Offered(state, asked, row)
    ensures ok ==> OneEach(state, asked, selected)
  {
    selected := map[];
    var answers;
    ok, answers := Render(rows);
    if !ok { return; }
    if |answers| == 0 { return false, selected; }
    for i := 0 to |answers|
      invariant forall p :: p in selected ==> Offered(state, asked, Row(p, selected[p]))
    {
      var entry := answers[i];
      assert entry in answers;
      if entry.location in selected { return false, selected; }
      selected := selected[entry.location := entry.path];
    }
    if |selected| != |asked| { return false, selected; }
    assert |selected.Keys| == |selected|;
    SubsetSize(selected.Keys, asked);
    ok := *;                              // asking which disks to wipe
  }

  /** Asks again as often as the user wants; giving up leaves nothing selected. */
  method RetryLocal(state: State, asked: set<string>, rows: seq<Row>) returns (ok: bool, selected: map<string, string>)
    requires asked <= state.Keys && forall row :: row in rows <==> Offered(state, asked, row)
    ensures ok ==> selected == map[] || OneEach(state, asked, selected)
  {
    selected := map[];
    var retries: nat := *;
    while true
      decreases retries
    {
      var done, chosen := SelectLocal(state, asked, rows);
      if done { return true, chosen; }
      ok := *;                            // the question whether to retry
      if !ok { return; }
      var retry: bool := *;
      if !retry || retries == 0 { return true, map[]; }
      retries := retries - 1;
    }
  }

  /** The unused disks once `path` is taken. */
  function WithoutPath(available: map<string, Disk>, path: string): (r: map<string, Disk>)
    ensures path !in Paths(r)
  {
    map id | id in available && FormatDiskPath(available[id]) != path :: available[id]
  }

  /** Nothing but `path` is taken. */
  lemma OnlyThatPath(available: map<string, Disk>, path: string, other: string)
    requires other != path
    ensures other in Paths(WithoutPath(available, path)) <==> other in Paths(available)
  {
    var left := WithoutPath(available, path);
    if other in Paths(available) {
      var id :| id in available && FormatDiskPath(available[id]) == other;
      assert id in left && left[id] == available[id];
    }
  }

  // ---- The configuration -------------------------------------------------------------------------------------------

  class InitConfig {
    var state: State
    var systems: map<string, System>

    /** The systems to ask, if all of them support the pool. */
    method AskedForLocal() returns (supported: bool, asked: set<string>)
      ensures supported ==> asked == AskedLocal(state) && forall p :: p in state ==> state[p].supportsLocal
      ensures !supported ==> exists p :: p in state && !state[p].supportsLocal
    {
      asked := {};
      var done: set<string> := {};
      while done != state.Keys
        invariant done <= state.Keys && (forall p :: p in done ==> state[p].supportsLocal)
        invariant forall p :: p in asked <==> p in done && !state[p].hasLocal
        decreases state.Keys - done
      {
        var p :| p in state && p !in done;
        if !state[p].supportsLocal { return false, {}; }
        if !state[p].hasLocal { asked := asked + {p}; }
        done := done + {p};
      }
      supported := true;
    }

    /** Takes the selected disks out of the systems' unused disks. */
    ghost predicate Taken(before: State, selected: map<string, string>)
      reads this`state
    {
      && state.Keys == before.Keys
      && forall p :: p in state ==>
           state[p] == if p in selected then before[p].(available := WithoutPath(before[p].available, selected[p]))
                       else before[p]
    }

    /** Each asked system got exactly the selected disk as one more source of its local pool. */
    ghost predicate Assigned(before: map<string, System>, selected: map<string, string>)
      reads this`systems
    {
      && systems.Keys == before.Keys
      && forall p :: p in systems ==>
           systems[p] == if p in selected then before[p].(localSources := before[p].localSources + [selected[p]])
                         else before[p]
    }

    method Assign(selected: map<string, string>)
      modifies `systems
      ensures Assigned(old(systems), selected)
    {
      var done: set<string> := {};
      while done != systems.Keys
        modifies `systems
        invariant done <= systems.Keys == old(systems).Keys
        invariant forall p :: p in systems ==>
                    systems[p] == if p in selected && p in done
                                  then old(systems)[p].(localSources := old(systems)[p].localSources + [selected[p]])
                                  else old(systems)[p]
        decreases old(systems).Keys - done
      {
        var p :| p in systems && p !in done;
        if p in selected {
          systems := systems[p := systems[p].(localSources := systems[p].localSources + [selected[p]])];
        }
        done := done + {p};
      }
    }

    method Take(selected: map<string, string>)
      modifies `state
      ensures Taken(old(state), selected)
    {
      var done: set<string> := {};
      while done != state.Keys
        modifies `state
        invariant done <= state.Keys == old(state).Keys
        invariant forall p :: p in state ==>
                    state[p] == if p in selected && p in done
                                then old(state)[p].(available := WithoutPath(old(state)[p].available, selected[p]))
                                else old(state)[p]
        decreases old(state).Keys - done
      {
        var p :| p in state && p !in done;
        if p in selected {
          state := state[p := state[p].(available := WithoutPath(state[p].available, selected[p]))];
        }
        done := done + {p};
      }
    }

    /**
     Sets up local storage: a completed run gives every asked system exactly one of the disks that it offered, and takes
     that disk away from what it offers later; any other run changes nothing.
     */
    method AskLocalPool() returns (outcome: Outcome)
      modifies this
      ensures !outcome.Configured? ==> state == old(state) && systems == old(systems)
      ensures outcome.Configured? ==>
                && OneEach(old(state), AskedLocal(old(state)), outcome.selected)
                && Taken(old(state), outcome.selected) && Assigned(old(systems), outcome.selected)
    {
      var supported, asked := AskedForLocal();
      if !supported { return Skipped; }
      if asked == {} || exists p :: p in asked && |state[p].available| == 0 { return Skipped; }
      var wants: Option<bool> := *;
      if wants == None { return Error; }
      if !wants.value { return Skipped; }
      var rows := Offer(state, asked);
      var ok, selected := RetryLocal(state, asked, rows);
      if !ok { return Error; }
      if |selected| == 0 { return Skipped; }
      Assign(selected);
      Take(selected);
      outcome := Configured(selected);
    }

    /** Adds the selected disks to the systems' MicroCeph disks. */
    method AddCephDisks(selected: seq<Row>, toWipe: seq<Row>, encrypt: bool)
      modifies `systems
      ensures CephAdded(old(systems), selected, toWipe, encrypt)
    {
      var done: set<string> := {};
      while done != systems.Keys
        modifies `systems
        invariant done <= systems.Keys == old(systems).Keys
        invariant forall p :: p in systems ==>
                    systems[p] == if p in done
                                  then old(systems)[p].(cephDisks := old(systems)[p].cephDisks
                                                                     + PostsFor(p, selected, toWipe, encrypt))
                                  else old(systems)[p]
        decreases old(systems).Keys - done
      {
        var p :| p in systems && p !in done;
        var osds := Osds(p, selected, toWipe, encrypt);
        systems := systems[p := systems[p].(cephDisks := systems[p].cephDisks + osds)];
        done := done + {p};
      }
    }

    ghost predicate CephAdded(before: map<string, System>, selected: seq<Row>, toWipe: seq<Row>, encrypt: bool)
      reads this`systems
    {
      && systems.Keys == before.Keys
      && forall p :: p in systems ==>
           systems[p] == before[p].(cephDisks := before[p].cephDisks + PostsFor(p, selected, toWipe, encrypt))
    }

    /**
     Sets up distributed storage. Each system gets, in order, the disks that were selected on it in the last table, and
     those are disks that it offered.
     */
    method AskRemotePool(installed: bool)
      returns (ok: bool, ghost selected: seq<Row>, ghost toWipe: seq<Row>, ghost encrypt: bool)
      modifies `systems
      ensures forall row :: row in selected ==> Offered(state, AskedRemote(state), row)
      ensures !ok ==> systems == old(systems) && selected == []
      ensures ok ==> CephAdded(old(systems), selected, toWipe, encrypt)
    {
      selected, toWipe, encrypt := [], [], false;
      NoneSelected(systems);
      if !installed { return true, selected, toWipe, encrypt; }
      var proceed, asked;
      ok, proceed, asked := AskedForRemote();
      if !ok || !proceed { return; }
      var chosen, wiped: seq<Row> := [], [];
      if asked != {} {
        ok, proceed, chosen, wiped := ChooseRemote(asked);
        if !ok || !proceed { return; }
      }
      var secret: Option<bool> := *;      // encryption, CephFS and network questions
      if secret == None { ok := false; return; }
      selected, toWipe, encrypt := chosen, wiped, secret.value;
      AddCephDisks(chosen, wiped, secret.value);
      ok := true;
    }

    /** The systems to ask; a remote-fs pool without a remote one is an error. */
    method AskedForRemote() returns (ok: bool, proceed: bool, asked: set<string>)
      ensures ok && proceed ==> asked == AskedRemote(state)
    {
      asked := {};
      var done: set<string> := {};
      while done != state.Keys
        invariant done <= state.Keys
        invariant forall p :: p in asked <==> p in done && !state[p].hasRemote
        decreases state.Keys - done
      {
        var p :| p in state && p !in done;
        var info := state[p];
        if !info.supportsRemote || !info.supportsRemoteFS { return true, false, asked; }
        if !info.hasRemote && info.hasRemoteFS { return false, false, asked; }
        if !info.hasRemote { asked := asked + {p}; }
        done := done + {p};
      }
      ok, proceed := true, true;
    }

    /** Shows the remaining disks of the asked systems until the user is content. */
    method ChooseRemote(asked: set<string>) returns (ok: bool, proceed: bool, selected: seq<Row>, toWipe: seq<Row>)
      requires asked == AskedRemote(state)
      ensures ok ==> forall row :: row in selected ==> Offered(state, asked, row)
      ensures ok && !proceed ==> selected == []
    {
      selected, toWipe := [], [];
      var existing: Option<nat> := *;     // members of an existing MicroCeph cluster that have disks
      if existing == None { return false, false, selected, toWipe; }
      var rows := Offer(state, asked);
      if |rows| == 0 && existing.value == 0 { return true, false, selected, toWipe; }
      var wants: Option<bool> := *;
      if wants == None { return false, false, selected, toWipe; }
      if |rows| > 0 && wants.value {
        ok, selected, toWipe := RetryRemote(rows);
        if !ok { return ok, false, selected, toWipe; }
      }
      ok := true;
      proceed := |selected| > 0 || existing.value > 0;
    }

    /** Both dialogues: no disk assigned to a system's local pool is added to its MicroCeph disks. */
    method AskDisks(installed: bool) returns (local: Outcome, ok: bool, ghost selected: seq<Row>)
      modifies this
      ensures systems.Keys == old(systems).Keys
      ensures local.Configured? ==> OneEach(old(state), AskedLocal(old(state)), local.selected)
      ensures local.Configured? ==> forall p :: p in local.selected ==> Row(p, local.selected[p]) !in selected
      ensures local.Configured? ==> forall p :: p in local.selected && p in systems ==>
                && systems[p].localSources == old(systems)[p].localSources + [local.selected[p]]
                && |systems[p].cephDisks| >= |old(systems)[p].cephDisks|
                && forall post :: post in systems[p].cephDisks[|old(systems)[p].cephDisks|..] ==>
                     post.path != local.selected[p]
    {
      selected := [];
      local := AskLocalPool();
      if local == Error { return local, false, selected; }
      ghost var between := systems;
      ghost var toWipe, encrypt;
      ok, selected, toWipe, encrypt := AskRemotePool(installed);
      if local.Configured? {
        forall p | p in local.selected ensures Row(p, local.selected[p]) !in selected {
          assert local.selected[p] !in Paths(state[p].available);
        }
        forall p, post | p in local.selected && p in systems && post in PostsFor(p, selected, toWipe, encrypt)
          ensures post.path != local.selected[p]
        {
          PostsAreSelected(p, selected, toWipe, encrypt, post);
        }
      }
    }
  }

  /** The disks selected on one system, in order. */
  function PostsFor(p: string, selected: seq<Row>, toWipe: seq<Row>, encrypt: bool): seq<Post> {
    if selected == [] then []
    else
      var row := selected[|selected| - 1];
      PostsFor(p, selected[..|selected| - 1], toWipe, encrypt)
      + if row.location == p then [Post(row.path, row in toWipe, encrypt)] else []
  }

  lemma {:induction false} PostsAreSelected(p: string, selected: seq<Row>, toWipe: seq<Row>, encrypt: bool, post: Post)
    requires post in PostsFor(p, selected, toWipe, encrypt)
    ensures Row(p, post.path) in selected
  {
    var front, row := selected[..|selected| - 1], selected[|selected| - 1];
    if post in PostsFor(p, front, toWipe, encrypt) {
      PostsAreSelected(p, front, toWipe, encrypt, post);
      assert Row(p, post.path) in front;
    } else {
      assert row == Row(p, post.path);
    }
  }

  lemma NoneSelected(systems: map<string, System>)
    ensures forall p :: p in systems ==>
              systems[p].(cephDisks := systems[p].cephDisks + PostsFor(p, [], [], false)) == systems[p]
  {
    assert forall p :: p in systems ==> systems[p].cephDisks + [] == systems[p].cephDisks;
  }

  method Osds(p: string, selected: seq<Row>, toWipe: seq<Row>, encrypt: bool) returns (osds: seq<Post>)
    ensures osds == PostsFor(p, selected, toWipe, encrypt)
  {
    osds := [];
    for i := 0 to |selected|
      invariant osds == PostsFor(p, selected[..i], toWipe, encrypt)
    {
      assert selected[..i + 1][..i] == selected[..i];
      if selected[i].location == p { osds := osds + [Post(selected[i].path, selected[i] in toWipe, encrypt)]; }
    }
    assert selected[..|selected|] == selected;
  }

  /** A declined retry keeps the last selection. */
  method RetryRemote(rows: seq<Row>) returns (ok: bool, selected: seq<Row>, toWipe: seq<Row>)
    ensures ok ==> forall row :: row in selected ==> row in rows
  {
    var retries: nat := *;
    while true
      decreases retries
    {
      selected, toWipe := [], [];
      var rendered, answers := Render(rows);
      if rendered && |answers| > 0 {
        rendered, toWipe := Render(answers);
      }
      if rendered { selected := answers; }
      var content: bool := *;             // enough systems supply disks
      if rendered && content { return true, selected, toWipe; }
      ok := *;                            // the question whether to retry
      if !ok { return; }
      var retry: bool := *;
      if !retry || retries == 0 { return true, selected, toWipe; }
      retries := retries - 1;
    }
  }
}
