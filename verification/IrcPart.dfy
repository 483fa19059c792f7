/** PART with a comma list: what the loop over the names leaves does not depend on their order or repetition. */
module IrcPart {
  import opened Lists
  import opened Text
  import opened IrcState
  import opened IrcSteps
  import opened IrcInvariant

  /** The channel stays in the table when the client leaves every channel of a set. */
  predicate Stays<Id(==)>(info: map<Id, ClientInfo>, ch: Chan<Id>, listed: bool, c: Id) {
    listed && c in ch.members ==> Leave(info, ch, c).Some?
  }

  function AfterLeaving<Id(==)>(info: map<Id, ClientInfo>, ch: Chan<Id>, listed: bool, c: Id): Chan<Id>
    requires Stays(info, ch, listed, c)
  {
    if listed && c in ch.members then Leave(info, ch, c).value else ch
  }

  /** The table after a client left a set of channels, each on its own. */
  function Departed<Id(==)>(info: map<Id, ClientInfo>, channels: map<string, Chan<Id>>, names: set<string>,
                            c: Id): map<string, Chan<Id>> {
    map key | key in channels && Stays(info, channels[key], key in names, c) ::
      AfterLeaving(info, channels[key], key in names, c)
  }

  function Names(names: seq<string>): set<string> {
    set n | n in names
  }

  /** Having left, the client is no member any more. */
  lemma LeftForGood<Id>(info: map<Id, ClientInfo>, key: string, ch: Chan<Id>, c: Id)
    requires ChanOk(info, key, ch) && c in ch.members && Leave(info, ch, c).Some?
    ensures c !in Leave(info, ch, c).value.members
  {
    RemoveFirstDistinct(ch.members, c);
  }

  lemma LeaveOne<Id>(info: map<Id, ClientInfo>, channels: map<string, Chan<Id>>, name: string, others: set<string>,
                     c: Id)
    requires ChannelsOk(info, channels)
    ensures Departed(info, LeaveAt(info, channels, name, c), others, c) == Departed(info, channels, {name} + others, c)
  {
    hide Leave;
    if name in channels && c in channels[name].members {
      assert ChanOk(info, name, channels[name]);
      if Leave(info, channels[name], c).Some? {
        LeftForGood(info, name, channels[name], c);
      }
    }
  }

  /** The loop of PART does what leaving the set of the listed channels does. */
  lemma {:induction false} PartAllIs<Id>(info: map<Id, ClientInfo>, channels: map<string, Chan<Id>>, names: seq<string>,
                                         c: Id)
    requires ChannelsOk(info, channels)
    ensures PartAll(info, channels, names, c) == Departed(info, channels, Names(names), c)
    decreases |names|
  {
    hide ChannelsOk, LeaveAt;
    if names == [] {
      assert Departed(info, channels, {}, c) == channels;
    } else {
      LeaveAtOk(info, channels, names[0], c);
      PartAllIs(info, LeaveAt(info, channels, names[0], c), names[1..], c);
      LeaveOne(info, channels, names[0], Names(names[1..]), c);
      assert Names(names) == {names[0]} + Names(names[1..]);
    }
  }

  /** Any order and any repetition of the names gives the same table. */
  lemma PartOrderIrrelevant<Id>(info: map<Id, ClientInfo>, channels: map<string, Chan<Id>>, names: seq<string>,
                                names': seq<string>, c: Id)
    requires ChannelsOk(info, channels) && forall n :: n in names <==> n in names'
    ensures PartAll(info, channels, names, c) == PartAll(info, channels, names', c)
  {
    hide ChannelsOk, Departed;
    PartAllIs(info, channels, names, c);
    PartAllIs(info, channels, names', c);
    assert Names(names) == Names(names');
  }

  /**
   * Unlisted channels are untouched; the client is gone from each listed one, the other members keep their order;
   * a channel disappears exactly when the client was its last member.
   */
  lemma PartMeaning<Id>(info: map<Id, ClientInfo>, channels: map<string, Chan<Id>>, names: seq<string>, c: Id,
                        key: string)
    requires ChannelsOk(info, channels) && key in channels
    ensures var after, ch := PartAll(info, channels, names, c), channels[key];
            && (key !in names || c !in ch.members ==> key in after && after[key] == ch)
            && (key in names && c in ch.members ==>
                  && (key in after <==> ch.members != [c])
                  && (key in after ==>
                        exists i :: 0 <= i < |ch.members| && ch.members[i] == c
                                    && after[key].members == ch.members[..i] + ch.members[i + 1..])
                  && (key in after ==>
                        && c !in after[key].members && after[key].name == ch.name
                        && after[key].key == ch.key && after[key].topic == ch.topic))
  {
    PartAllIs(info, channels, names, c);
    var ch := channels[key];
    assert key in Names(names) <==> key in names;
    if key in names && c in ch.members {
      assert ChanOk(info, key, ch);
      var i :| 0 <= i < |ch.members| && ch.members[i] == c;
      RemoveFirstAt(ch.members, c, i);
      RemoveFirstDistinct(ch.members, c);
      if RemoveFirst(ch.members, c) == [] {
        assert ch.members == [c];
      }
    }
  }

  /** No channel appears by a PART. */
  lemma PartAddsNone<Id>(info: map<Id, ClientInfo>, channels: map<string, Chan<Id>>, names: seq<string>, c: Id)
    requires ChannelsOk(info, channels)
    ensures PartAll(info, channels, names, c).Keys <= channels.Keys
  {
    hide ChannelsOk;
    PartAllIs(info, channels, names, c);
  }

  lemma LeaveIsDeparted<Id>(info: map<Id, ClientInfo>, channels: map<string, Chan<Id>>, name: string, c: Id)
    requires ChannelsOk(info, channels)
    ensures LeaveAt(info, channels, name, c) == Departed(info, channels, {name}, c)
  {
    hide ChannelsOk, LeaveAt, Departed;
    PartAllIs(info, channels, [name], c);
    assert Names([name]) == {name};
    assert PartAll(info, channels, [name], c) == LeaveAt(info, channels, name, c) by {
      assert [name][1..] == [];
    }
  }
}
