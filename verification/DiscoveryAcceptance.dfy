/** Which catalogues are accepted, and what the receiver then holds, said of the entries themselves. */
module DiscoveryAcceptance {
  import opened Basics
  import opened DiscoveryWire
  import opened DiscoveryCatalog
  import opened Discovery

  // ---- what may be sent ----

  predicate Writable(text: Text, most: nat) {
    0 < |text| <= most && 0 !in text
  }

  /** A key is ASCII and has 1 to 255 characters; a value has at most 65535 bytes; neither has a zero byte. */
  predicate PropertyOk(p: Property) {
    && Writable(p.key, 255) && (forall i | 0 <= i < |p.key| :: p.key[i] < 128)
    && |p.value| <= 65535 && 0 !in p.value
  }

  predicate PropertiesOk(properties: seq<Property>) {
    forall i | 0 <= i < |properties| :: PropertyOk(properties[i])
  }

  predicate EntryOk(e: Entry) {
    && Writable(e.name, 65535) && Writable(e.kind, 255)
    && (forall i | 0 <= i < |e.aliases| :: Writable(e.aliases[i], 65535))
    && PropertiesOk(e.properties)
  }

  lemma ValidAppend(a: seq<Message>, b: seq<Message>)
    ensures AllValid(a + b) <==> AllValid(a) && AllValid(b)
  {
    hide ValidMessage;
    if AllValid(a + b) {
      assert forall i | 0 <= i < |a| :: a[i] == (a + b)[i];
      assert forall i | 0 <= i < |b| :: b[i] == (a + b)[|a| + i];
    }
  }

  lemma ValidInfos(id: nat, properties: seq<Property>)
    requires id < 0x1_0000_0000
    ensures AllValid(Infos(id, properties)) <==> PropertiesOk(properties)
  {
    forall i | 0 <= i < |properties|
      ensures ValidMessage(Infos(id, properties)[i]) <==> PropertyOk(properties[i])
    {
    }
  }

  lemma ValidAliases(id: nat, aliases: seq<Text>)
    requires id < 0x1_0000_0000
    ensures AllValid(Aliases(id, aliases)) <==> forall i | 0 <= i < |aliases| :: Writable(aliases[i], 65535)
  {
    forall i | 0 <= i < |aliases|
      ensures ValidMessage(Aliases(id, aliases)[i]) <==> Writable(aliases[i], 65535)
    {
    }
  }

  lemma ValidEntry(id: nat, e: Entry)
    requires id < 0x1_0000_0000
    ensures AllValid(EntryMessages(id, e)) <==> EntryOk(e)
  {
    var head := [Record(id, e.kind, e.name)];
    ValidAliases(id, e.aliases);
    ValidInfos(id, e.properties);
    ValidAppend(head, Aliases(id, e.aliases));
    ValidAppend(head + Aliases(id, e.aliases), Infos(id, e.properties));
    assert AllValid(head) <==> ValidMessage(head[0]);
    hide AllValid, PropertiesOk;
  }

  predicate EntriesOk(entries: seq<Entry>) {
    forall i | 0 <= i < |entries| :: EntryOk(entries[i])
  }

  lemma {:induction false} ValidEntries(entries: seq<Entry>)
    requires |entries| < 0x1_0000_0000
    ensures AllValid(EntriesMessages(entries)) <==> EntriesOk(entries)
  {
    hide AllValid, EntryOk, EntryMessages;
    if entries == [] {
      assert AllValid([]) by { NothingIsValid(); }
    } else {
      var before, last := entries[..|entries| - 1], entries[|entries| - 1];
      ValidEntries(before);
      ValidEntry(|entries|, last);
      ValidAppend(EntriesMessages(before), EntryMessages(|entries|, last));
      assert forall i | 0 <= i < |before| :: before[i] == entries[i];
    }
  }

  lemma NothingIsValid()
    ensures AllValid([])
  {
  }

  // ---- sizes ----

  function PropertyBytes(properties: seq<Property>): nat {
    if properties == [] then 0
    else PropertyBytes(properties[..|properties| - 1])
         + 16 + |properties[|properties| - 1].key| + |properties[|properties| - 1].value|
  }

  function AliasBytes(aliases: seq<Text>): nat {
    if aliases == [] then 0 else AliasBytes(aliases[..|aliases| - 1]) + 16 + |aliases[|aliases| - 1]|
  }

  /** Sixteen bytes for each message, and its texts. */
  function EntryBytes(e: Entry): nat {
    16 + |e.kind| + |e.name| + AliasBytes(e.aliases) + PropertyBytes(e.properties)
  }

  function EntriesBytes(entries: seq<Entry>): nat {
    if entries == [] then 0 else EntriesBytes(entries[..|entries| - 1]) + EntryBytes(entries[|entries| - 1])
  }

  lemma EncodeBytes(m: Message)
    requires ValidMessage(m)
    ensures |Encode(m)| == 16 + match m
                                case Info(_, key, value) => |key| + |value|
                                case Record(_, kind, name) => |kind| + |name|
                                case Alias(_, name) => |name|
  {
  }

  lemma {:induction false} InfosBytes(id: nat, properties: seq<Property>)
    requires AllValid(Infos(id, properties))
    ensures |Image(Infos(id, properties))| == PropertyBytes(properties)
  {
    if properties != [] {
      var n := |properties| - 1;
      assert Infos(id, properties)[..n] == Infos(id, properties[..n]);
      InfosBytes(id, properties[..n]);
      EncodeBytes(Infos(id, properties)[n]);
    }
  }

  lemma {:induction false} AliasesBytes(id: nat, aliases: seq<Text>)
    requires AllValid(Aliases(id, aliases))
    ensures |Image(Aliases(id, aliases))| == AliasBytes(aliases)
  {
    if aliases != [] {
      var n := |aliases| - 1;
      assert Aliases(id, aliases)[..n] == Aliases(id, aliases[..n]);
      AliasesBytes(id, aliases[..n]);
      EncodeBytes(Aliases(id, aliases)[n]);
    }
  }

  lemma EntryMessagesBytes(id: nat, e: Entry)
    requires AllValid(EntryMessages(id, e))
    ensures |Image(EntryMessages(id, e))| == EntryBytes(e)
  {
    var head := [Record(id, e.kind, e.name)];
    assert EntryMessages(id, e)[0] == head[0] && AllValid(head);
    ValidAppend(head, Aliases(id, e.aliases));
    ValidAppend(head + Aliases(id, e.aliases), Infos(id, e.properties));
    EncodeBytes(head[0]);
    hide AllValid, Image, Encode, Infos, Aliases;
    ImageOne(head[0]);
    AliasesBytes(id, e.aliases);
    InfosBytes(id, e.properties);
    ImageAppend(head, Aliases(id, e.aliases));
    ImageAppend(head + Aliases(id, e.aliases), Infos(id, e.properties));
  }

  lemma {:induction false} EntriesMessagesBytes(entries: seq<Entry>)
    requires AllValid(EntriesMessages(entries))
    ensures |Image(EntriesMessages(entries))| == EntriesBytes(entries)
  {
    if entries != [] {
      hide AllValid, Image, EntryBytes, EntryMessages;
      var before, last := entries[..|entries| - 1], entries[|entries| - 1];
      ValidAppend(EntriesMessages(before), EntryMessages(|entries|, last));
      EntriesMessagesBytes(before);
      EntryMessagesBytes(|entries|, last);
      ImageAppend(EntriesMessages(before), EntryMessages(|entries|, last));
    }
  }

  // ---- acceptance ----

  lemma {:induction false} NamesCover(entries: seq<Entry>)
    ensures |entries| <= |Names(entries)|
  {
    if entries != [] {
      NamesCover(entries[..|entries| - 1]);
    }
  }

  /**
   A catalogue is accepted exactly if every key, value, name, kind and alias may be sent, no name or alias occurs twice,
   there are no more of them than allowed, and all messages with the twelve bytes of the end marker fit the byte limit.
   */
  lemma AcceptableIff(limits: Limits, identity: seq<Property>, entries: seq<Entry>)
    ensures Acceptable(limits, identity, entries) <==>
              && |Names(entries)| <= limits.maxRecords && Distinct(Names(entries))
              && PropertiesOk(identity) && EntriesOk(entries)
              && PropertyBytes(identity) + EntriesBytes(entries) + 12 <= limits.maxBytes
  {
    hide AllValid, Image, PropertiesOk, EntriesOk, PropertyBytes, EntriesBytes, Names, Infos, EntriesMessages, Frame, Distinct;
    NamesCover(entries);
    if |Names(entries)| <= limits.maxRecords {
      ValidInfos(0, identity);
      ValidEntries(entries);
      ValidAppend(Infos(0, identity), EntriesMessages(entries));
      if AllValid(Messages(identity, entries)) {
        InfosBytes(0, identity);
        EntriesMessagesBytes(entries);
        ImageAppend(Infos(0, identity), EntriesMessages(entries));
        EndIs();
      }
    }
  }

  // ---- the receiver ----

  ghost predicate Keyed(properties: seq<Property>) {
    forall j, k | 0 <= j < k < |properties| :: properties[j].key != properties[k].key
  }

  /** The dictionary has exactly the listed keys and values. */
  ghost predicate Holds(book: map<Text, Text>, properties: seq<Property>) {
    && (forall i | 0 <= i < |properties| :: properties[i].key in book && book[properties[i].key] == properties[i].value)
    && (forall key | key in book :: exists i | 0 <= i < |properties| :: properties[i].key == key)
  }

  lemma {:induction false} MapOnly(properties: seq<Property>, key: Text)
    requires key in MapOf(properties)
    ensures exists i | 0 <= i < |properties| :: properties[i].key == key
  {
    var n := |properties| - 1;
    if properties[n].key != key {
      MapOnly(properties[..n], key);
      var i :| 0 <= i < n && properties[..n][i].key == key;
      assert properties[i].key == key;
    }
  }

  lemma MapHolds(properties: seq<Property>)
    requires Keyed(properties)
    ensures Holds(MapOf(properties), properties)
  {
    hide MapOf;
    forall i | 0 <= i < |properties|
      ensures properties[i].key in MapOf(properties) && MapOf(properties)[properties[i].key] == properties[i].value
    {
      MapOfIs(properties, i);
    }
    forall key | key in MapOf(properties)
      ensures exists i | 0 <= i < |properties| :: properties[i].key == key
    {
      MapOnly(properties, key);
    }
  }

  lemma {:induction false} RecordKeys(entries: seq<Entry>, id: nat)
    ensures id in RecordsOf(entries) <==> 1 <= id <= |entries|
  {
    hide ReceivedOf;
    if entries != [] {
      RecordKeys(entries[..|entries| - 1], id);
    }
  }

  /**
   The receiver of an accepted catalogue holds the identity, and under the numbers 1, 2, … exactly the entries: name, kind,
   aliases in order, and properties.
   */
  lemma ReceiverHolds(limits: Limits, identity: seq<Property>, entries: seq<Entry>)
    requires Acceptable(limits, identity, entries)
    requires Keyed(identity) && forall i | 0 <= i < |entries| :: Keyed(entries[i].properties)
    ensures var read := Read(Wire(identity, entries));
            && read.Some? && Holds(read.value.identity, identity)
            && (forall id: nat :: id in read.value.records <==> 1 <= id <= |entries|)
            && forall i | 0 <= i < |entries| ::
                 var r := read.value.records[i + 1];
                 r.name == entries[i].name && r.kind == entries[i].kind && r.aliases == entries[i].aliases
                 && Holds(r.properties, entries[i].properties)
  {
    hide Read, MapOf, RecordsOf, Acceptable, Wire, Holds, Keyed;
    RoundTrip(limits, identity, entries);
    MapHolds(identity);
    forall id: nat
      ensures id in RecordsOf(entries) <==> 1 <= id <= |entries|
    {
      RecordKeys(entries, id);
    }
    forall i | 0 <= i < |entries|
      ensures RecordsOf(entries)[i + 1] == ReceivedOf(entries[i]) && Holds(MapOf(entries[i].properties), entries[i].properties)
    {
      RecordsOfIs(entries, i);
      MapHolds(entries[i].properties);
    }
  }
}
