/** Building the catalogue's wire image. */
module Discovery {
  import opened Basics
  import opened DiscoveryWire
  import opened DiscoveryCatalog

  datatype Limits = Limits(maxRecords: Word, maxBytes: nat)

  datatype Catalog = Catalog(generation: nat, wire: Text, records: nat, aliases: nat)

  // ---- when a catalogue is accepted ----

  /** The names and aliases of the entries, in order. */
  function Names(entries: seq<Entry>): seq<Text> {
    if entries == [] then []
    else Names(entries[..|entries| - 1]) + [entries[|entries| - 1].name] + entries[|entries| - 1].aliases
  }

  predicate AllValid(messages: seq<Message>) {
    forall i | 0 <= i < |messages| :: ValidMessage(messages[i])
  }

  function Wire(identity: seq<Property>, entries: seq<Entry>): Text
    requires AllValid(Messages(identity, entries))
  {
    Image(Messages(identity, entries)) + Frame(5, EndBody)
  }

  /** Every text is valid, no name is used twice, and the limits on records and bytes are kept. */
  ghost predicate Acceptable(limits: Limits, identity: seq<Property>, entries: seq<Entry>) {
    && |Names(entries)| <= limits.maxRecords && Distinct(Names(entries))
    && AllValid(Messages(identity, entries)) && |Wire(identity, entries)| <= limits.maxBytes
  }

  // ---- lengths ----

  lemma {:induction false} ImageAppend(a: seq<Message>, b: seq<Message>)
    requires AllValid(a) && AllValid(b)
    ensures AllValid(a + b) && Image(a + b) == Image(a) + Image(b)
  {
    hide ValidMessage, Encode;
    assert AllValid(a + b);
    if b == [] {
      assert a + b == a && Image(a) + [] == Image(a);
    } else {
      ImageAppend(a, b[..|b| - 1]);
      assert (a + b)[..|a + b| - 1] == a + b[..|b| - 1];
    }
  }

  lemma ImageOne(m: Message)
    requires ValidMessage(m)
    ensures Image([m]) == Encode(m)
  {
    hide ValidMessage, Encode;
    assert [m][..0] == [];
    assert Image([m]) == [] + Encode(m);
  }

  lemma ImagePrefix(all: seq<Message>, k: nat)
    requires AllValid(all) && k <= |all|
    ensures AllValid(all[..k]) && |Image(all[..k])| <= |Image(all)|
  {
    hide ValidMessage, Image;
    assert all == all[..k] + all[k..];
    ImageAppend(all[..k], all[k..]);
  }

  // ---- progress ----

  predicate Fits(all: seq<Message>, maximum: nat) {
    AllValid(all) && |Image(all)| + |Frame(5, EndBody)| <= maximum
  }

  ghost predicate NamesOk(all: seq<Text>, limit: nat) {
    Distinct(all) && |all| <= limit
  }

  /** The messages sent so far are the first of all. */
  ghost predicate Sent(all: seq<Message>, sent: seq<Message>, wire: Text, maximum: nat) {
    sent <= all && AllValid(sent) && wire == Image(sent) && |wire| <= maximum
  }

  /** The names taken so far are the first of all. */
  ghost predicate Taken(all: seq<Text>, taken: seq<Text>, names: set<Text>, count: nat, limit: nat) {
    taken <= all && Distinct(taken) && names == (set x | x in taken) && count == |taken| <= limit
  }

  /** Appends the next message unless it is invalid or would exceed the byte limit. */
  method Emit(wire: Text, m: Message, maximum: nat, ghost all: seq<Message>, ghost sent: seq<Message>)
    returns (ok: bool, next: Text)
    requires Sent(all, sent, wire, maximum) && sent + [m] <= all
    ensures ok ==> Sent(all, sent + [m], next, maximum)
    ensures !ok ==> !Fits(all, maximum)
  {
    hide Image, ValidText, ValidKey, ValidValue, Frame, Body;
    assert all[..|sent|] == sent && all[..|sent| + 1] == sent + [m] && all[|sent|] == m;
    if !ValidMessage(m) {
      return false, wire;
    }
    var bytes := Encode(m);
    ImageOne(m);
    ImageAppend(sent, [m]);
    if |bytes| > maximum - |wire| {
      if AllValid(all) {
        ImagePrefix(all, |sent| + 1);
      }
      return false, wire;
    }
    return true, wire + bytes;
  }

  /** Takes the next name unless the catalogue is full or the name is in use. */
  method Take(names: set<Text>, count: nat, name: Text, limit: nat, ghost all: seq<Text>, ghost taken: seq<Text>)
    returns (ok: bool, more: set<Text>)
    requires Taken(all, taken, names, count, limit) && taken + [name] <= all
    ensures ok ==> Taken(all, taken + [name], more, count + 1, limit)
    ensures !ok ==> !NamesOk(all, limit)
  {
    assert all[..|taken|] == taken && all[|taken|] == name;
    if count >= limit {
      return false, names;
    }
    if name in names {
      ghost var i :| 0 <= i < |taken| && taken[i] == name;
      assert all[i] == all[|taken|];
      return false, names;
    }
    more := names + {name};
    ok := true;
  }

  /** Sends the properties of one record. */
  method EmitInfos(wire: Text, id: nat, properties: seq<Property>, maximum: nat, ghost all: seq<Message>, ghost sent: seq<Message>)
    returns (ok: bool, next: Text)
    requires Sent(all, sent, wire, maximum) && sent + Infos(id, properties) <= all
    ensures ok ==> Sent(all, sent + Infos(id, properties), next, maximum)
    ensures !ok ==> !Fits(all, maximum)
  {
    hide Sent, Fits;
    next := wire;
    ok := true;
    assert sent + Infos(id, properties[..0]) == sent;
    for i := 0 to |properties|
      invariant Sent(all, sent + Infos(id, properties[..i]), next, maximum)
    {
      var m := Info(id, properties[i].key, properties[i].value);
      assert Infos(id, properties[..i + 1]) == Infos(id, properties[..i]) + [m];
      assert sent + Infos(id, properties[..i]) + [m] == sent + Infos(id, properties[..i + 1]);
      assert sent + Infos(id, properties[..i + 1]) == (sent + Infos(id, properties))[..|sent| + i + 1];
      ok, next := Emit(next, m, maximum, all, sent + Infos(id, properties[..i]));
      if !ok {
        return;
      }
    }
    assert properties[..|properties|] == properties;
  }

  /** Sends the aliases of one record, taking each name. */
  method EmitAliases(wire: Text, id: nat, aliases: seq<Text>, limits: Limits, names: set<Text>, count: nat,
                     ghost all: seq<Message>, ghost sent: seq<Message>, ghost every: seq<Text>, ghost taken: seq<Text>)
    returns (ok: bool, next: Text, more: set<Text>)
    requires Sent(all, sent, wire, limits.maxBytes) && sent + Aliases(id, aliases) <= all
    requires Taken(every, taken, names, count, limits.maxRecords) && taken + aliases <= every
    ensures ok ==> Sent(all, sent + Aliases(id, aliases), next, limits.maxBytes)
    ensures ok ==> Taken(every, taken + aliases, more, count + |aliases|, limits.maxRecords)
    ensures !ok ==> !Fits(all, limits.maxBytes) || !NamesOk(every, limits.maxRecords)
  {
    hide Sent, Fits, Taken, NamesOk;
    next, more := wire, names;
    ok := true;
    assert sent + Aliases(id, aliases[..0]) == sent && taken + aliases[..0] == taken;
    for i := 0 to |aliases|
      invariant Sent(all, sent + Aliases(id, aliases[..i]), next, limits.maxBytes)
      invariant Taken(every, taken + aliases[..i], more, count + i, limits.maxRecords)
    {
      assert taken + aliases[..i] + [aliases[i]] == taken + aliases[..i + 1] == (taken + aliases)[..|taken| + i + 1];
      ok, more := Take(more, count + i, aliases[i], limits.maxRecords, every, taken + aliases[..i]);
      if !ok {
        return;
      }
      var m := Alias(id, aliases[i]);
      assert Aliases(id, aliases[..i + 1]) == Aliases(id, aliases[..i]) + [m];
      assert sent + Aliases(id, aliases[..i]) + [m] == sent + Aliases(id, aliases[..i + 1]);
      assert sent + Aliases(id, aliases[..i + 1]) == (sent + Aliases(id, aliases))[..|sent| + i + 1];
      ok, next := Emit(next, m, limits.maxBytes, all, sent + Aliases(id, aliases[..i]));
      if !ok {
        return;
      }
    }
    assert aliases[..|aliases|] == aliases;
  }

  /** Sends one record with its aliases and properties. */
  method EmitEntry(wire: Text, id: nat, e: Entry, limits: Limits, names: set<Text>, count: nat,
                   ghost all: seq<Message>, ghost sent: seq<Message>, ghost every: seq<Text>, ghost taken: seq<Text>)
    returns (ok: bool, next: Text, more: set<Text>)
    requires Sent(all, sent, wire, limits.maxBytes) && sent + EntryMessages(id, e) <= all
    requires Taken(every, taken, names, count, limits.maxRecords) && taken + [e.name] + e.aliases <= every
    ensures ok ==> Sent(all, sent + EntryMessages(id, e), next, limits.maxBytes)
    ensures ok ==> Taken(every, taken + [e.name] + e.aliases, more, count + 1 + |e.aliases|, limits.maxRecords)
    ensures !ok ==> !Fits(all, limits.maxBytes) || !NamesOk(every, limits.maxRecords)
  {
    hide Sent, Fits, Taken, NamesOk, Infos, Aliases;
    next := wire;
    var m := Record(id, e.kind, e.name);
    assert sent + EntryMessages(id, e) == sent + [m] + Aliases(id, e.aliases) + Infos(id, e.properties);
    ok, more := Take(names, count, e.name, limits.maxRecords, every, taken);
    if !ok {
      return;
    }
    ok, next := Emit(next, m, limits.maxBytes, all, sent);
    if !ok {
      return;
    }
    ok, next, more := EmitAliases(next, id, e.aliases, limits, more, count + 1, all, sent + [m], every, taken + [e.name]);
    if !ok {
      return;
    }
    ok, next := EmitInfos(next, id, e.properties, limits.maxBytes, all, sent + [m] + Aliases(id, e.aliases));
  }

  lemma {:induction false} EntriesPrefix(entries: seq<Entry>, i: nat)
    requires i < |entries|
    ensures EntriesMessages(entries[..i]) + EntryMessages(i + 1, entries[i]) == EntriesMessages(entries[..i + 1])
    ensures EntriesMessages(entries[..i + 1]) <= EntriesMessages(entries)
    ensures Names(entries[..i]) + [entries[i].name] + entries[i].aliases == Names(entries[..i + 1])
    ensures Names(entries[..i + 1]) <= Names(entries)
  {
    hide EntryMessages;
    assert entries[..i + 1][..i] == entries[..i];
    if i + 1 == |entries| {
      assert entries[..i + 1] == entries;
    } else {
      var n := |entries| - 1;
      EntriesPrefix(entries[..n], i);
      assert entries[..n][..i + 1] == entries[..i + 1];
    }
  }

  /** Builds the catalogue, or nothing if any part of it is unacceptable. */
  method Prepare(limits: Limits, generation: nat, identity: seq<Property>, entries: seq<Entry>) returns (result: Option<Catalog>)
    ensures result.Some? <==> Acceptable(limits, identity, entries)
    ensures result.Some? ==> result.value.generation == generation && result.value.wire == Wire(identity, entries)
                             && result.value.records + result.value.aliases == |Names(entries)|
                             && result.value.records == |entries| && |result.value.wire| <= limits.maxBytes
  {
    hide Sent, Taken, Infos, EntryMessages, AllValid, Image, Distinct, Frame;
    ghost var all, every := Messages(identity, entries), Names(entries);
    NothingSent(all, every, limits);
    AcceptableIs(limits, identity, entries);
    assert [] + Infos(0, identity) == Infos(0, identity);
    var ok, wire := EmitInfos([], 0, identity, limits.maxBytes, all, []);
    if !ok {
      return None;
    }
    var names: set<Text> := {};
    var aliases: nat := 0;
    assert Infos(0, identity) + EntriesMessages(entries[..0]) == [] + Infos(0, identity);
    for i := 0 to |entries|
      invariant Sent(all, Infos(0, identity) + EntriesMessages(entries[..i]), wire, limits.maxBytes)
      invariant Taken(every, Names(entries[..i]), names, i + aliases, limits.maxRecords)
    {
      EntriesPrefix(entries, i);
      ghost var sent := Infos(0, identity) + EntriesMessages(entries[..i]);
      assert sent + EntryMessages(i + 1, entries[i]) == Infos(0, identity) + EntriesMessages(entries[..i + 1]);
      ok, wire, names := EmitEntry(wire, i + 1, entries[i], limits, names, i + aliases, all, sent, every, Names(entries[..i]));
      if !ok {
        return None;
      }
      aliases := aliases + |entries[i].aliases|;
    }
    assert entries[..|entries|] == entries;
    SentAll(all, wire, limits.maxBytes, every, names, |entries| + aliases, limits.maxRecords);
    var end := Frame(5, EndBody);
    if |end| > limits.maxBytes - |wire| {
      return None;
    }
    result := Some(Catalog(generation, wire + end, |entries|, aliases));
  }

  lemma NothingSent(all: seq<Message>, every: seq<Text>, limits: Limits)
    ensures Sent(all, [], [], limits.maxBytes) && Taken(every, [], {}, 0, limits.maxRecords)
  {
  }

  lemma SentAll(all: seq<Message>, wire: Text, maximum: nat, every: seq<Text>, names: set<Text>, count: nat, limit: nat)
    requires Sent(all, all, wire, maximum) && Taken(every, every, names, count, limit)
    ensures AllValid(all) && wire == Image(all) && |wire| <= maximum && Distinct(every) && count == |every| <= limit
  {
    hide ValidMessage, Image;
  }

  lemma AcceptableIs(limits: Limits, identity: seq<Property>, entries: seq<Entry>)
    ensures Acceptable(limits, identity, entries) <==>
              Fits(Messages(identity, entries), limits.maxBytes) && NamesOk(Names(entries), limits.maxRecords)
  {
    hide AllValid, Image, Distinct, Frame, Messages;
  }

  // ---- the receiver ----

  /** What the receiver makes of a stream. */
  function Read(wire: Text): Option<Book> {
    match Receive(wire)
    case None => None
    case Some(messages) => Interpret(Book(map[], map[]), messages)
  }

  /** Reading undoes building: identity, records, alias order and properties come back. */
  lemma RoundTrip(limits: Limits, identity: seq<Property>, entries: seq<Entry>)
    requires Acceptable(limits, identity, entries)
    ensures Read(Wire(identity, entries)) == Some(Book(MapOf(identity), RecordsOf(entries)))
  {
    hide Receive, Image, Frame, Interpret, MapOf, RecordsOf, Messages, ValidMessage;
    ReceiveEnd();
    ReceiveImage(Messages(identity, entries), Frame(5, EndBody));
    assert Messages(identity, entries) + [] == Messages(identity, entries);
    InterpretMessages(identity, entries);
  }

  /** Listing a dictionary and collecting it again loses nothing. */
  lemma {:induction false} MapOfIs(properties: seq<Property>, i: nat)
    requires i < |properties| && forall j, k | 0 <= j < k < |properties| :: properties[j].key != properties[k].key
    ensures properties[i].key in MapOf(properties) && MapOf(properties)[properties[i].key] == properties[i].value
  {
    if i < |properties| - 1 {
      MapOfIs(properties[..|properties| - 1], i);
    }
  }
}
