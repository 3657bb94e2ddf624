/**
 * The collaboration bootstrap of the Write activity, as pure state
 * transitions. A session is the activity's `tube_id`, `joined` and
 * `participants` fields; each handler yields the new session together with the
 * engine commands (`invoke_cmd`) and tube-channel calls it makes, in order.
 * The class in module Activity runs these handlers in place and is proved to
 * follow them.
 */
module Collaboration {
  import opened Wrappers
  import opened Engine
  import opened Seqs

  /** The D-Bus service the tube is offered under. */
  const Service := "com.abisource.abiword.abicollab"
  /** Namespace of the engine's collaboration commands. */
  const CmdPrefix := "com.abisource.abiword.abicollab.olpc."
  const JoinTube := CmdPrefix + "joinTube"
  const OfferTube := CmdPrefix + "offerTube"
  const BuddyJoined := CmdPrefix + "buddyJoined"
  const BuddyLeft := CmdPrefix + "buddyLeft"

  /** Telepathy's `TUBE_TYPE_DBUS` and `TUBE_STATE_LOCAL_PENDING`. */
  const TubeTypeDBus := 0
  const TubeStateLocalPending := 0

  /**
   * A tube announcement (`NewTube` signal or one `ListTubes` entry): id,
   * initiator handle, tube type, service and state, together with what the
   * channel answers for that id: its D-Bus names as (handle, bus name) pairs
   * and its address. The unused `params` argument is left out.
   */
  datatype Tube = Tube(id: int, initiator: int, kind: int, service: string, state: int,
                       names: seq<(int, string)>, address: string)

  /** Calls made on the telepathy tubes channel. */
  datatype TubeCall = OfferDBusTube(service: string) | AcceptDBusTube(id: int) | ListTubes

  datatype Session = Session(tubeId: Option<int>, joined: bool, participants: map<int, string>)

  /** The state after a handler and what it sent, in order. */
  datatype Step = Step(session: Session, commands: seq<Call>, tubeCalls: seq<TubeCall>)

  /** The handles of a tube's D-Bus names, in order. */
  function Handles(names: seq<(int, string)>): (hs: seq<int>)
    ensures |hs| == |names| && forall i :: 0 <= i < |names| ==> hs[i] == names[i].0
  {
    seq(|names|, i requires 0 <= i < |names| => names[i].0)
  }

  /** The position of the initiator's entry in a tube's D-Bus names: the first
      one carrying its handle, or -1 when there is none. */
  function InitiatorIndex(names: seq<(int, string)>, initiator: int): (k: int)
    ensures -1 <= k < |names|
    ensures k >= 0 ==> names[k].0 == initiator
    ensures forall j :: 0 <= j < |names| && (k < 0 || j < k) ==> names[j].0 != initiator
  {
    FirstIndex(Handles(names), initiator)
  }

  /** A tube `_new_tube_cb` takes up: none taken yet, a D-Bus tube of the
      AbiCollab service, and the initiator among its names. */
  predicate Accepts(s: Session, t: Tube)
  {
    && s.tubeId.None?
    && t.kind == TubeTypeDBus
    && t.service == Service
    && InitiatorIndex(t.names, t.initiator) >= 0
  }

  /** The initiator search succeeds exactly when some D-Bus name entry of the
      tube carries the initiator's handle, so `Accepts` is the three guards of
      `_new_tube_cb` plus the initiator's presence. */
  lemma AcceptsIffInitiatorPresent(s: Session, t: Tube)
    ensures Accepts(s, t) <==>
              && s.tubeId.None? && t.kind == TubeTypeDBus && t.service == Service
              && exists i :: 0 <= i < |t.names| && t.names[i].0 == t.initiator
  {
    var k := InitiatorIndex(t.names, t.initiator);
    if k >= 0 {
      assert t.names[k].0 == t.initiator;
    }
  }

  /** `_on_dbus_names_changed`: every added (handle, bus name) is announced to
      the engine and recorded; the removed list is never looked at. */
  function NamesChangedStep(s: Session, added: seq<(int, string)>): (r: Step)
    decreases |added|
    ensures r.session.tubeId == s.tubeId && r.session.joined == s.joined
    ensures r.tubeCalls == [] && |r.commands| == |added|
    ensures s.participants.Keys <= r.session.participants.Keys
  {
    if |added| == 0 then Step(s, [], [])
    else
      var prev := NamesChangedStep(s, added[..|added| - 1]);
      var (handle, busName) := added[|added| - 1];
      Step(prev.session.(participants := prev.session.participants[handle := busName]),
           prev.commands + [InvokeCmd(BuddyJoined, busName)], [])
  }

  /** `_new_tube_cb`: the tube's guards, its acceptance on the channel, the
      initiator search and the announcements, in that order. */
  function NewTubeStep(s: Session, t: Tube): Step
  {
    if s.tubeId.Some? || t.kind != TubeTypeDBus || t.service != Service then Step(s, [], [])
    else
      var accept := if t.state == TubeStateLocalPending then [AcceptDBusTube(t.id)] else [];
      var k := InitiatorIndex(t.names, t.initiator);
      if k < 0 then Step(s, [], accept)
      else
        var announce := if s.joined
                        then [InvokeCmd(JoinTube, t.address), InvokeCmd(BuddyJoined, t.names[k].1)]
                        else [InvokeCmd(OfferTube, t.address)];
        var named := NamesChangedStep(s.(tubeId := Some(t.id)), t.names);
        Step(named.session, announce + named.commands, accept)
  }

  /** `_list_tubes_reply_cb`: the listed tubes handed to `_new_tube_cb` in order. */
  function ListTubesStep(s: Session, tubes: seq<Tube>): (r: Step)
    decreases |tubes|
    ensures r.session.joined == s.joined
    ensures s.tubeId.Some? ==> r == Step(s, [], [])
  {
    if |tubes| == 0 then Step(s, [], [])
    else
      var prev := ListTubesStep(s, tubes[..|tubes| - 1]);
      var last := NewTubeStep(prev.session, tubes[|tubes| - 1]);
      Step(last.session, prev.commands + last.commands, prev.tubeCalls + last.tubeCalls)
  }

  /** `_on_members_changed`: each removed handle still recorded is dropped and
      announced as gone; a handle not recorded is skipped. */
  function MembersChangedStep(s: Session, removed: seq<int>): (r: Step)
    decreases |removed|
    ensures r.session.tubeId == s.tubeId && r.session.joined == s.joined
    ensures r.tubeCalls == [] && |r.commands| <= |removed|
  {
    if |removed| == 0 then Step(s, [], [])
    else
      var prev := MembersChangedStep(s, removed[..|removed| - 1]);
      var handle := removed[|removed| - 1];
      var known := prev.session.participants;
      if handle in known
      then Step(prev.session.(participants := known - {handle}),
                prev.commands + [InvokeCmd(BuddyLeft, known[handle])], [])
      else prev
  }

  // ---------------------------------------------------------------------
  // D-Bus names bookkeeping

  /** Each added name is announced once, in the order given. */
  lemma {:induction false} NamesChangedAnnouncesEach(s: Session, added: seq<(int, string)>)
    ensures var r := NamesChangedStep(s, added);
            forall i :: 0 <= i < |added| ==> r.commands[i] == InvokeCmd(BuddyJoined, added[i].1)
    decreases |added|
  {
    if |added| > 0 {
      var init := added[..|added| - 1];
      NamesChangedAnnouncesEach(s, init);
      assert forall i :: 0 <= i < |init| ==> init[i] == added[i];
    }
  }

  /** Recorded handles are the old ones plus every added one. */
  lemma {:induction false} NamesChangedKeys(s: Session, added: seq<(int, string)>)
    ensures NamesChangedStep(s, added).session.participants.Keys
         == s.participants.Keys + (set i | 0 <= i < |added| :: added[i].0)
    decreases |added|
  {
    if |added| > 0 {
      var init := added[..|added| - 1];
      NamesChangedKeys(s, init);
      assert (set i | 0 <= i < |added| :: added[i].0)
          == (set i | 0 <= i < |init| :: init[i].0) + {added[|added| - 1].0};
    }
  }

  /** An added handle maps to the bus name of its last entry. */
  lemma {:induction false} NamesChangedLastNameWins(s: Session, added: seq<(int, string)>, i: nat)
    requires i < |added|
    requires forall j :: i < j < |added| ==> added[j].0 != added[i].0
    ensures added[i].0 in NamesChangedStep(s, added).session.participants
    ensures NamesChangedStep(s, added).session.participants[added[i].0] == added[i].1
    decreases |added|
  {
    if i < |added| - 1 {
      var init := added[..|added| - 1];
      assert forall j :: 0 <= j < |init| ==> init[j] == added[j];
      NamesChangedLastNameWins(s, init, i);
    }
  }

  /** A handle that is not among the added ones keeps its recorded name. */
  lemma {:induction false} NamesChangedKeepsOthers(s: Session, added: seq<(int, string)>, h: int)
    requires h in s.participants
    requires forall i :: 0 <= i < |added| ==> added[i].0 != h
    ensures NamesChangedStep(s, added).session.participants[h] == s.participants[h]
    decreases |added|
  {
    if |added| > 0 {
      var init := added[..|added| - 1];
      assert forall j :: 0 <= j < |init| ==> init[j] == added[j];
      NamesChangedKeepsOthers(s, init, h);
    }
  }

  // ---------------------------------------------------------------------
  // Tube acceptance

  /** A tube that is not accepted changes no session field and sends the
      engine nothing; once a tube is held it does not even touch the channel. */
  lemma RejectedTubeChangesNothing(s: Session, t: Tube)
    requires !Accepts(s, t)
    ensures NewTubeStep(s, t).session == s && NewTubeStep(s, t).commands == []
    ensures s.tubeId.Some? ==> NewTubeStep(s, t).tubeCalls == []
  {
  }

  /** What `_new_tube_cb` does to the session and the channel: the tube is
      held afterwards exactly when it is accepted, joined is kept, and a
      local-pending D-Bus tube of the service is accepted on the channel while
      no tube is held, whether or not its initiator turns out to be present. */
  lemma NewTubeStepEffects(s: Session, t: Tube)
    ensures var r := NewTubeStep(s, t);
            && r.session.joined == s.joined
            && r.session.tubeId == (if Accepts(s, t) then Some(t.id) else s.tubeId)
            && r.tubeCalls == if s.tubeId.None? && t.kind == TubeTypeDBus && t.service == Service
                                 && t.state == TubeStateLocalPending
                              then [AcceptDBusTube(t.id)] else []
  {
  }

  /** The branch `_new_tube_cb` takes for an accepted tube. */
  lemma AcceptedTubeUnfolds(s: Session, t: Tube)
    requires Accepts(s, t)
    ensures var k := InitiatorIndex(t.names, t.initiator);
            var announce := if s.joined
                            then [InvokeCmd(JoinTube, t.address), InvokeCmd(BuddyJoined, t.names[k].1)]
                            else [InvokeCmd(OfferTube, t.address)];
            var named := NamesChangedStep(s.(tubeId := Some(t.id)), t.names);
            NewTubeStep(s, t) == Step(named.session, announce + named.commands,
                                      if t.state == TubeStateLocalPending then [AcceptDBusTube(t.id)] else [])
  {
  }

  /** An accepted tube: joiners send joinTube and then the initiator, hosts
      send only offerTube; then every name of the tube is announced and
      recorded, and the tube is held from then on. */
  lemma AcceptedTube(s: Session, t: Tube)
    requires Accepts(s, t)
    ensures var r := NewTubeStep(s, t);
            var k := InitiatorIndex(t.names, t.initiator);
            var announce := if s.joined
                            then [InvokeCmd(JoinTube, t.address), InvokeCmd(BuddyJoined, t.names[k].1)]
                            else [InvokeCmd(OfferTube, t.address)];
            && r.session.tubeId == Some(t.id)
            && r.session.joined == s.joined
            && r.commands == announce + NamesChangedStep(s.(tubeId := Some(t.id)), t.names).commands
            && |r.commands| == |announce| + |t.names|
            && (forall i :: 0 <= i < |t.names| ==> r.commands[|announce| + i] == InvokeCmd(BuddyJoined, t.names[i].1))
            && r.session.participants == NamesChangedStep(s.(tubeId := Some(t.id)), t.names).session.participants
            && r.tubeCalls == if t.state == TubeStateLocalPending then [AcceptDBusTube(t.id)] else []
  {
    var r := NewTubeStep(s, t);
    var held := s.(tubeId := Some(t.id));
    var k := InitiatorIndex(t.names, t.initiator);
    var announce := if s.joined
                    then [InvokeCmd(JoinTube, t.address), InvokeCmd(BuddyJoined, t.names[k].1)]
                    else [InvokeCmd(OfferTube, t.address)];
    var named := NamesChangedStep(held, t.names);
    AcceptedTubeUnfolds(s, t);
    NamesChangedAnnouncesEach(held, t.names);
    forall i | 0 <= i < |t.names|
      ensures r.commands[|announce| + i] == InvokeCmd(BuddyJoined, t.names[i].1)
    {
      assert r.commands[|announce| + i] == named.commands[i];
    }
  }

  /** When the initiator is not among the tube's names nothing is taken up, so
      a later tube can still be accepted. */
  lemma MissingInitiatorKeepsSlotFree(s: Session, t: Tube, later: Tube)
    requires s.tubeId.None? && t.kind == TubeTypeDBus && t.service == Service
    requires forall i :: 0 <= i < |t.names| ==> t.names[i].0 != t.initiator
    requires Accepts(s, later)
    ensures NewTubeStep(s, t).session == s && NewTubeStep(s, t).commands == []
    ensures NewTubeStep(s, t).tubeCalls == if t.state == TubeStateLocalPending then [AcceptDBusTube(t.id)] else []
    ensures Accepts(NewTubeStep(s, t).session, later)
  {
  }

  /** Single-tube policy: after one tube is accepted, every further
      announcement is ignored. */
  lemma SecondTubeIgnored(s: Session, first: Tube, second: Tube)
    requires Accepts(s, first)
    ensures var held := NewTubeStep(s, first).session;
            NewTubeStep(held, second) == Step(held, [], [])
  {
  }

  /** A listed batch in which no tube is acceptable leaves the session as it
      was and sends the engine nothing. */
  lemma {:induction false} RejectedBatchChangesNothing(s: Session, tubes: seq<Tube>)
    requires forall j :: 0 <= j < |tubes| ==> !Accepts(s, tubes[j])
    ensures ListTubesStep(s, tubes).session == s && ListTubesStep(s, tubes).commands == []
    decreases |tubes|
  {
    if |tubes| > 0 {
      var init := tubes[..|tubes| - 1];
      assert forall j :: 0 <= j < |init| ==> init[j] == tubes[j];
      RejectedBatchChangesNothing(s, init);
      RejectedTubeChangesNothing(s, tubes[|tubes| - 1]);
    }
  }

  /** Over a listed batch only the first acceptable tube takes effect: the
      session and the engine commands are exactly those of that tube alone. */
  lemma {:induction false} FirstValidTubeWins(s: Session, tubes: seq<Tube>, k: nat)
    requires k < |tubes| && Accepts(s, tubes[k])
    requires forall j :: 0 <= j < k ==> !Accepts(s, tubes[j])
    ensures ListTubesStep(s, tubes).session == NewTubeStep(s, tubes[k]).session
    ensures ListTubesStep(s, tubes).commands == NewTubeStep(s, tubes[k]).commands
    ensures ListTubesStep(s, tubes).session.tubeId == Some(tubes[k].id)
    decreases |tubes|
  {
    var init := tubes[..|tubes| - 1];
    assert forall j :: 0 <= j < |init| ==> init[j] == tubes[j];
    if |tubes| == k + 1 {
      RejectedBatchChangesNothing(s, init);
    } else {
      FirstValidTubeWins(s, init, k);
      SecondTubeIgnored(s, tubes[k], tubes[|tubes| - 1]);
    }
  }

  // ---------------------------------------------------------------------
  // Members leaving

  /** The recorded participants lose exactly the removed handles. */
  lemma {:induction false} MembersChangedRemoves(s: Session, removed: seq<int>)
    ensures MembersChangedStep(s, removed).session.participants
         == s.participants - (set i | 0 <= i < |removed| :: removed[i])
    decreases |removed|
  {
    if |removed| > 0 {
      var init := removed[..|removed| - 1];
      MembersChangedRemoves(s, init);
      assert (set i | 0 <= i < |removed| :: removed[i])
          == (set i | 0 <= i < |init| :: init[i]) + {removed[|removed| - 1]};
    }
  }

  /** Reference for the commands of a batch of removals, read off the
      participants as they were before it: one buddyLeft for the first
      occurrence of each recorded handle, carrying the name it was recorded
      with, in the order of the batch. */
  function Departures(known: map<int, string>, removed: seq<int>): seq<Call>
    decreases |removed|
  {
    if |removed| == 0 then []
    else
      var init := removed[..|removed| - 1];
      var handle := removed[|removed| - 1];
      Departures(known, init)
        + if handle in known && handle !in init then [InvokeCmd(BuddyLeft, known[handle])] else []
  }

  /** The commands of any batch, with known, unknown and repeated handles
      mixed, are the reference departures. */
  lemma {:induction false} MembersChangedMatchesDepartures(s: Session, removed: seq<int>)
    ensures MembersChangedStep(s, removed).commands == Departures(s.participants, removed)
    decreases |removed|
  {
    if |removed| > 0 {
      var init := removed[..|removed| - 1];
      var handle := removed[|removed| - 1];
      MembersChangedMatchesDepartures(s, init);
      MembersChangedRemoves(s, init);
      var gone := set i | 0 <= i < |init| :: init[i];
      assert handle in init <==> handle in gone by {
        if handle in init {
          var i :| 0 <= i < |init| && init[i] == handle;
          assert handle in gone;
        }
      }
    }
  }

  /** A batch of distinct recorded handles: one buddyLeft per handle, in
      order, each with the name the handle was recorded with. */
  lemma {:induction false} DistinctDeparturesAnnounceEach(known: map<int, string>, removed: seq<int>)
    requires forall i :: 0 <= i < |removed| ==> removed[i] in known
    requires forall i, j :: 0 <= i < j < |removed| ==> removed[i] != removed[j]
    ensures |Departures(known, removed)| == |removed|
    ensures forall i :: 0 <= i < |removed| ==> Departures(known, removed)[i] == InvokeCmd(BuddyLeft, known[removed[i]])
    decreases |removed|
  {
    if |removed| > 0 {
      var init := removed[..|removed| - 1];
      assert forall i :: 0 <= i < |init| ==> init[i] == removed[i];
      DistinctDeparturesAnnounceEach(known, init);
      assert removed[|removed| - 1] !in init;
    }
  }

  /** `_on_members_changed` with distinct recorded handles announces each of
      them leaving, in order, with its recorded name. */
  lemma MembersChangedAnnouncesEach(s: Session, removed: seq<int>)
    requires forall i :: 0 <= i < |removed| ==> removed[i] in s.participants
    requires forall i, j :: 0 <= i < j < |removed| ==> removed[i] != removed[j]
    ensures var r := MembersChangedStep(s, removed);
            && |r.commands| == |removed|
            && forall i :: 0 <= i < |removed| ==> r.commands[i] == InvokeCmd(BuddyLeft, s.participants[removed[i]])
  {
    MembersChangedMatchesDepartures(s, removed);
    DistinctDeparturesAnnounceEach(s.participants, removed);
  }

  /** Handles that are not recorded produce no command and no change. */
  lemma {:induction false} UnknownMembersIgnored(s: Session, removed: seq<int>)
    requires forall i :: 0 <= i < |removed| ==> removed[i] !in s.participants
    ensures MembersChangedStep(s, removed) == Step(s, [], [])
    decreases |removed|
  {
    if |removed| > 0 {
      UnknownMembersIgnored(s, removed[..|removed| - 1]);
    }
  }

  /** Removing a handle twice yields a single buddyLeft, carrying the name it
      was recorded with, and no error. */
  lemma RemoveTwiceLeavesOnce(s: Session, handle: int)
    ensures MembersChangedStep(s, [handle, handle]).commands
         == if handle in s.participants then [InvokeCmd(BuddyLeft, s.participants[handle])] else []
    ensures handle !in MembersChangedStep(s, [handle, handle]).session.participants
  {
    assert [handle, handle][..1] == [handle];
    assert [handle][..0] == [];
    assert MembersChangedStep(s, []) == Step(s, [], []);
    var once := MembersChangedStep(s, [handle]);
    assert handle in s.participants ==> once.commands == [] + [InvokeCmd(BuddyLeft, s.participants[handle])];
    assert once.commands
        == if handle in s.participants then [InvokeCmd(BuddyLeft, s.participants[handle])] else [];
    assert handle !in once.session.participants;
  }

  /** A second delivery of the same removals finds nobody left to remove. */
  lemma MembersChangedIdempotent(s: Session, removed: seq<int>)
    ensures var once := MembersChangedStep(s, removed).session;
            MembersChangedStep(once, removed) == Step(once, [], [])
  {
    var once := MembersChangedStep(s, removed).session;
    MembersChangedRemoves(s, removed);
    UnknownMembersIgnored(once, removed);
  }
}
