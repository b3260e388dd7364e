// The command that edits the configuration and the daemon that reloads it, together.
module SwitchRoundTrip {
  import opened Strs
  import opened TextLines
  import opened TransparentToml
  import opened TransparentRead
  import opened TransparentReload
  import opened TransparentPatch
  import opened HostsReload

  lemma KeyIsBare()
    ensures BareKey(SNI_PEEK_MODE)
  {
  }

  // Whatever the daemon has been through, if every reversal so far has worked: switching
  // the mode off in a file that names the key nowhere above, and reloading it with a
  // reversal that works, leaves neither patch nor engine.
  lemma DisableTakesEffect(lines: seq<string>, cfg: bool, applyOk: bool, engineOk: bool, events: seq<Event>, off: Event)
    requires AllLines(lines)
    requires forall j :: 0 <= j < |lines| && j < WrittenAt(lines, SNI_PEEK_MODE) ==> !Mentions(lines[j], SNI_PEEK_MODE)
    requires !HasStopped(events) && ReversalsWork(events)
    requires off.Sighup? && off.reverseOk
    requires off.want == ReadBool(Join(Edited(lines, SNI_PEEK_MODE, "false"), "\n"), SNI_PEEK_MODE)
    ensures var t := Step(Run(Start(Some(cfg), applyOk, engineOk), events), off);
      t.hosts.None? && !t.armed && !t.engine
  {
    hide Run, Start, Step, ReadBool, Join, Edited, Mentions, WrittenAt, BareKey, OneLine;
    KeyIsBare();
    ReadsBackAlone(lines, SNI_PEEK_MODE, "false");
    ArmedIffPatchedWhenReversalsWork(Some(cfg), applyOk, engineOk, events);
    OffUnpatchesIff(Some(cfg), applyOk, engineOk, events, off);
  }

  // Switching it on leaves the daemon armed with a patch whose closure it holds, if it was
  // armed or the apply works.
  lemma EnableTakesEffect(lines: seq<string>, cfg: bool, applyOk: bool, engineOk: bool, events: seq<Event>, on: Event)
    requires AllLines(lines)
    requires forall j :: 0 <= j < |lines| && j < WrittenAt(lines, SNI_PEEK_MODE) ==> !Mentions(lines[j], SNI_PEEK_MODE)
    requires !HasStopped(events)
    requires on.Sighup? && on.want == ReadBool(Join(Edited(lines, SNI_PEEK_MODE, "true"), "\n"), SNI_PEEK_MODE)
    ensures var s := Run(Start(Some(cfg), applyOk, engineOk), events); var t := Step(s, on);
      && (t.armed <==> s.armed || on.applyOk)
      && (t.engine <==> s.engine || (!s.armed && on.engineOk))
      && (t.armed ==> t.hosts.Some? && t.cleanup == Some(Reverse(t.hosts.value)) && t.hosts.value !in t.reversed)
  {
    hide Run, Start, ReadBool, Join, Edited, Mentions, WrittenAt, BareKey, OneLine;
    KeyIsBare();
    ReadsBackAlone(lines, SNI_PEEK_MODE, "true");
    ArmedIsSwitchedOn(Some(cfg), applyOk, engineOk, events);
    RunInv(Some(cfg), applyOk, engineOk, events);
  }
}
