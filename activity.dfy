/**
 * The Write activity's own state, updated in place by its callbacks: the
 * journal metadata it reads and rewrites on open and save, and the
 * collaboration fields `tube_id`, `joined` and `participants`. Every method is
 * proved to do what the pure policies of modules MimePolicy and Collaboration
 * say, with the calls it makes on the canvas and the tubes channel recorded
 * in order.
 */
module Activity {
  import opened Wrappers
  import opened Engine
  import opened MimePolicy
  import opened Collaboration

  const MimeTypeKey := "mime_type"
  const FulltextKey := "fulltext"

  function FileUri(path: string): string
  {
    "file://" + path
  }

  class AbiWordActivity {
    /** The embedded AbiWord canvas. */
    const canvas: Canvas
    /** The external MIME taxonomy, `sugar.mime.get_mime_parents`. */
    const mimeParents: string -> seq<string>
    /** The journal entry's metadata. */
    var metadata: map<string, string>
    /** Whether the host framework has a shared activity (`_shared_activity`). */
    var sharedActivity: bool
    var tubeId: Option<int>
    var joined: bool
    /** Peer handle to D-Bus unique name. */
    var participants: map<int, string>
    /** Calls made on the telepathy tubes channel so far. */
    var tubeCalls: seq<TubeCall>

    ghost function SessionState(): Session
      reads this
    {
      Session(tubeId, joined, participants)
    }

    /** The activity as the map handler leaves it: no participants, not
        joined, no tube. */
    constructor (canvas: Canvas, mimeParents: string -> seq<string>,
                 metadata: map<string, string>, sharedActivity: bool)
      ensures this.canvas == canvas && this.mimeParents == mimeParents
      ensures this.metadata == metadata && this.sharedActivity == sharedActivity
      ensures SessionState() == Session(None, false, map[]) && tubeCalls == []
    {
      this.canvas := canvas;
      this.mimeParents := mimeParents;
      this.metadata := metadata;
      this.sharedActivity := sharedActivity;
      tubeId := None;
      joined := false;
      participants := map[];
      tubeCalls := [];
    }

    // -------------------------------------------------------------------
    // Document I/O

    /** `read_file`: load as text/plain, or with no hint so that the engine
        detects the format. A metadata entry without a type raises (ok false)
        before anything is loaded. */
    method ReadFile(filePath: string) returns (ok: bool)
      modifies canvas
      ensures ok <==> MimeTypeKey in metadata
      ensures ok ==> canvas.calls == old(canvas.calls)
                        + [LoadFile(FileUri(filePath), LoadHint(metadata[MimeTypeKey], mimeParents))]
      ensures !ok ==> canvas.calls == old(canvas.calls)
      ensures canvas.text == old(canvas.text)
    {
      if MimeTypeKey !in metadata {
        return false;
      }
      if IsPlainTextAsWritten(metadata[MimeTypeKey], metadata[MimeTypeKey], mimeParents) {
        canvas.Invoke(LoadFile(FileUri(filePath), PlainText));
      } else {
        canvas.Invoke(LoadFile(FileUri(filePath), ""));
      }
      return true;
    }

    /** `write_file`: save as the plan says, record the type the plan leaves,
        and keep the summary of the document's text. A metadata entry without
        a type raises (ok false) before anything is saved. */
    method WriteFile(filePath: string) returns (ok: bool)
      modifies this, canvas
      ensures ok <==> MimeTypeKey in old(metadata)
      ensures ok ==>
                var plan := PlanSave(old(metadata)[MimeTypeKey], mimeParents);
                && metadata == old(metadata)[MimeTypeKey := plan.recorded][FulltextKey := Summary(canvas.text)]
                && canvas.calls == old(canvas.calls)
                                   + [Save(FileUri(filePath), plan.saveAs, ""), GetContent(".txt")]
      ensures !ok ==> metadata == old(metadata) && canvas.calls == old(canvas.calls)
      ensures canvas.text == old(canvas.text)
      ensures SessionState() == old(SessionState()) && tubeCalls == old(tubeCalls)
      ensures sharedActivity == old(sharedActivity)
    {
      if MimeTypeKey !in metadata {
        return false;
      }
      if IsPlainTextAsWritten(metadata[MimeTypeKey], metadata[MimeTypeKey], mimeParents) {
        canvas.Invoke(Save(FileUri(filePath), PlainText, ""));
      } else {
        if metadata[MimeTypeKey] == "" {
          metadata := metadata[MimeTypeKey := OpenDocumentText];
        }
        if metadata[MimeTypeKey] == MsWord {
          metadata := metadata[MimeTypeKey := Rtf];
        }
        canvas.Invoke(Save(FileUri(filePath), metadata[MimeTypeKey], ""));
      }
      var content := canvas.Content(".txt");
      metadata := metadata[FulltextKey := Summary(content)];
      return true;
    }

    // -------------------------------------------------------------------
    // Collaboration

    /** `_sharing_setup`: with a shared activity, forget any tube (the
        NewTube signal connection is not modelled); without one, do nothing. */
    method SharingSetup()
      modifies this
      ensures tubeId == if sharedActivity then None else old(tubeId)
      ensures joined == old(joined) && participants == old(participants)
      ensures tubeCalls == old(tubeCalls) && metadata == old(metadata)
      ensures sharedActivity == old(sharedActivity)
    {
      if !sharedActivity {
        return;
      }
      tubeId := None;
    }

    /** `_shared_cb`: set up and offer a tube under the AbiCollab service.
        Without a shared activity the source fails with an attribute error
        right after the set-up (ok false). */
    method Shared() returns (ok: bool)
      modifies this
      ensures ok == sharedActivity
      ensures ok ==> tubeId.None? && tubeCalls == old(tubeCalls) + [OfferDBusTube(Service)]
      ensures !ok ==> tubeId == old(tubeId) && tubeCalls == old(tubeCalls)
      ensures joined == old(joined) && participants == old(participants)
      ensures metadata == old(metadata) && sharedActivity == old(sharedActivity)
    {
      SharingSetup();
      if !sharedActivity {
        return false;
      }
      tubeCalls := tubeCalls + [OfferDBusTube(Service)];
      return true;
    }

    /** `_joined_cb`: with a shared activity, mark the session joined, set
        up, and ask the channel for its tubes; otherwise return at once. */
    method Joined()
      modifies this
      ensures sharedActivity ==> SessionState() == Session(None, true, old(participants))
                                 && tubeCalls == old(tubeCalls) + [ListTubes]
      ensures !sharedActivity ==> SessionState() == old(SessionState()) && tubeCalls == old(tubeCalls)
      ensures metadata == old(metadata) && sharedActivity == old(sharedActivity)
    {
      if !sharedActivity {
        return;
      }
      joined := true;
      SharingSetup();
      tubeCalls := tubeCalls + [ListTubes];
    }

    /** `_on_dbus_names_changed`; the tube id and the removed names are not
        looked at. */
    method DBusNamesChanged(id: int, added: seq<(int, string)>, removed: seq<(int, string)>)
      modifies this, canvas
      ensures var r := NamesChangedStep(old(SessionState()), added);
              SessionState() == r.session && canvas.calls == old(canvas.calls) + r.commands
      ensures tubeCalls == old(tubeCalls) && canvas.text == old(canvas.text)
      ensures metadata == old(metadata) && sharedActivity == old(sharedActivity)
    {
      ghost var start := SessionState();
      for i := 0 to |added|
        invariant SessionState() == NamesChangedStep(start, added[..i]).session
        invariant canvas.calls == old(canvas.calls) + NamesChangedStep(start, added[..i]).commands
        invariant tubeCalls == old(tubeCalls) && canvas.text == old(canvas.text)
        invariant metadata == old(metadata) && sharedActivity == old(sharedActivity)
      {
        var (handle, busName) := added[i];
        // the source builds this name from the prefix without its final dot
        canvas.Invoke(InvokeCmd(BuddyJoined, busName));
        participants := participants[handle := busName];
        assert added[..i + 1][..i] == added[..i];
      }
      assert added[..|added|] == added;
    }

    /** `_new_tube_cb`. */
    method NewTube(t: Tube)
      modifies this, canvas
      ensures var r := NewTubeStep(old(SessionState()), t);
              && SessionState() == r.session
              && canvas.calls == old(canvas.calls) + r.commands
              && tubeCalls == old(tubeCalls) + r.tubeCalls
      ensures canvas.text == old(canvas.text)
      ensures metadata == old(metadata) && sharedActivity == old(sharedActivity)
    {
      if tubeId.Some? {
        return;
      }
      if t.kind != TubeTypeDBus || t.service != Service {
        return;
      }
      if t.state == TubeStateLocalPending {
        tubeCalls := tubeCalls + [AcceptDBusTube(t.id)];
      }
      // the first entry of the tube's names whose handle is the initiator's
      var initiatorName: Option<string> := None;
      var i := 0;
      while i < |t.names|
        invariant 0 <= i <= |t.names| && initiatorName.None?
        invariant forall j :: 0 <= j < i ==> t.names[j].0 != t.initiator
      {
        if t.names[i].0 == t.initiator {
          initiatorName := Some(t.names[i].1);
          break;
        }
        i := i + 1;
      }
      if initiatorName.None? {
        return;
      }
      assert i == InitiatorIndex(t.names, t.initiator);
      if joined {
        canvas.Invoke(InvokeCmd(JoinTube, t.address));
        // the initiator has to reach the engine before any other peer
        canvas.Invoke(InvokeCmd(BuddyJoined, initiatorName.value));
      } else {
        canvas.Invoke(InvokeCmd(OfferTube, t.address));
      }
      tubeId := Some(t.id);
      DBusNamesChanged(t.id, t.names, []);
    }

    /** `_list_tubes_reply_cb`: every listed tube through `_new_tube_cb`. */
    method ListTubesReply(tubes: seq<Tube>)
      modifies this, canvas
      ensures var r := ListTubesStep(old(SessionState()), tubes);
              && SessionState() == r.session
              && canvas.calls == old(canvas.calls) + r.commands
              && tubeCalls == old(tubeCalls) + r.tubeCalls
      ensures canvas.text == old(canvas.text)
      ensures metadata == old(metadata) && sharedActivity == old(sharedActivity)
    {
      ghost var start := SessionState();
      for i := 0 to |tubes|
        invariant SessionState() == ListTubesStep(start, tubes[..i]).session
        invariant canvas.calls == old(canvas.calls) + ListTubesStep(start, tubes[..i]).commands
        invariant tubeCalls == old(tubeCalls) + ListTubesStep(start, tubes[..i]).tubeCalls
        invariant canvas.text == old(canvas.text)
        invariant metadata == old(metadata) && sharedActivity == old(sharedActivity)
      {
        ghost var prev := ListTubesStep(start, tubes[..i]);
        ghost var last := NewTubeStep(prev.session, tubes[i]);
        NewTube(tubes[i]);
        assert tubes[..i + 1][..i] == tubes[..i];
        assert ListTubesStep(start, tubes[..i + 1])
            == Step(last.session, prev.commands + last.commands, prev.tubeCalls + last.tubeCalls);
      }
      assert tubes[..|tubes|] == tubes;
    }

    /** `_on_members_changed` (never connected in the source): only the
        removed handles are looked at. */
    method MembersChanged(removed: seq<int>)
      modifies this, canvas
      ensures var r := MembersChangedStep(old(SessionState()), removed);
              SessionState() == r.session && canvas.calls == old(canvas.calls) + r.commands
      ensures tubeCalls == old(tubeCalls) && canvas.text == old(canvas.text)
      ensures metadata == old(metadata) && sharedActivity == old(sharedActivity)
    {
      ghost var start := SessionState();
      for i := 0 to |removed|
        invariant SessionState() == MembersChangedStep(start, removed[..i]).session
        invariant canvas.calls == old(canvas.calls) + MembersChangedStep(start, removed[..i]).commands
        invariant tubeCalls == old(tubeCalls) && canvas.text == old(canvas.text)
        invariant metadata == old(metadata) && sharedActivity == old(sharedActivity)
      {
        var handle := removed[i];
        assert removed[..i + 1][..i] == removed[..i];
        if handle in participants {
          var busName := participants[handle];
          participants := participants - {handle};
          canvas.Invoke(InvokeCmd(BuddyLeft, busName));
        }
      }
      assert removed[..|removed|] == removed;
    }
  }
}
