/** The catalogue a receiver rebuilds from the messages. */
module DiscoveryCatalog {
  import opened Basics
  import opened DiscoveryWire

  /** `properties` is listed in the order of its keys, each key once. */
  datatype Entry = Entry(name: Text, kind: Text, aliases: seq<Text>, properties: seq<Property>)

  datatype Received = Received(name: Text, kind: Text, aliases: seq<Text>, properties: map<Text, Text>)

  /** The receiver's dictionaries. */
  datatype Book = Book(identity: map<Text, Text>, records: map<nat, Received>)

  // ---- sending ----

  function Infos(id: nat, properties: seq<Property>): seq<Message> {
    seq(|properties|, i requires 0 <= i < |properties| => Info(id, properties[i].key, properties[i].value))
  }

  function Aliases(id: nat, aliases: seq<Text>): seq<Message> {
    seq(|aliases|, i requires 0 <= i < |aliases| => Alias(id, aliases[i]))
  }

  function EntryMessages(id: nat, e: Entry): seq<Message> {
    [Record(id, e.kind, e.name)] + Aliases(id, e.aliases) + Infos(id, e.properties)
  }

  function EntriesMessages(entries: seq<Entry>): seq<Message>
  {
    if entries == [] then []
    else EntriesMessages(entries[..|entries| - 1]) + EntryMessages(|entries|, entries[|entries| - 1])
  }

  function Messages(identity: seq<Property>, entries: seq<Entry>): seq<Message>
  {
    Infos(0, identity) + EntriesMessages(entries)
  }

  // ---- receiving ----

  function Apply(book: Book, m: Message): Option<Book> {
    match m
    case Info(id, key, value) =>
      if id == 0 then Some(book.(identity := book.identity[key := value]))
      else if id !in book.records then None
      else
        var r := book.records[id];
        Some(book.(records := book.records[id := r.(properties := r.properties[key := value])]))
    case Record(id, kind, name) => Some(book.(records := book.records[id := Received(name, kind, [], map[])]))
    case Alias(id, name) =>
      if id !in book.records then None
      else
        var r := book.records[id];
        Some(book.(records := book.records[id := r.(aliases := r.aliases + [name])]))
  }

  function Interpret(book: Book, messages: seq<Message>): Option<Book> {
    if messages == [] then Some(book)
    else
      match Interpret(book, messages[..|messages| - 1])
      case None => None
      case Some(b) => Apply(b, messages[|messages| - 1])
  }

  // ---- what the receiver should have ----

  function MapOf(properties: seq<Property>): map<Text, Text> {
    if properties == [] then map[]
    else MapOf(properties[..|properties| - 1])[properties[|properties| - 1].key := properties[|properties| - 1].value]
  }

  function ReceivedOf(e: Entry): Received {
    Received(e.name, e.kind, e.aliases, MapOf(e.properties))
  }

  function RecordsOf(entries: seq<Entry>): map<nat, Received>
  {
    if entries == [] then map[] else RecordsOf(entries[..|entries| - 1])[|entries| := ReceivedOf(entries[|entries| - 1])]
  }

  // ---- the receiver gets it ----

  lemma {:induction false} InterpretAppend(book: Book, a: seq<Message>, b: seq<Message>)
    requires Interpret(book, a).Some?
    ensures Interpret(book, a + b) == Interpret(Interpret(book, a).value, b)
  {
    if b == [] {
      assert a + b == a;
    } else {
      InterpretAppend(book, a, b[..|b| - 1]);
      assert (a + b)[..|a + b| - 1] == a + b[..|b| - 1];
    }
  }

  lemma {:induction false} InterpretIdentity(properties: seq<Property>)
    ensures Interpret(Book(map[], map[]), Infos(0, properties)) == Some(Book(MapOf(properties), map[]))
  {
    if properties != [] {
      InterpretIdentity(properties[..|properties| - 1]);
      assert Infos(0, properties)[..|properties| - 1] == Infos(0, properties[..|properties| - 1]);
    }
  }

  lemma Overwrite(records: map<nat, Received>, id: nat, a: Received, b: Received)
    ensures records[id := a][id := b] == records[id := b]
  {
  }

  lemma {:induction false} InterpretInfos(book: Book, id: nat, properties: seq<Property>)
    requires id > 0 && id in book.records && book.records[id].properties == map[]
    ensures Interpret(book, Infos(id, properties))
            == Some(book.(records := book.records[id := book.records[id].(properties := MapOf(properties))]))
  {
    if properties == [] {
      assert book.records[id := book.records[id].(properties := map[])] == book.records;
    } else {
      InterpretInfos(book, id, properties[..|properties| - 1]);
      Overwrite(book.records, id, book.records[id].(properties := MapOf(properties[..|properties| - 1])),
                book.records[id].(properties := MapOf(properties)));
      assert Infos(id, properties)[..|properties| - 1] == Infos(id, properties[..|properties| - 1]);
    }
  }

  lemma {:induction false} InterpretAliases(book: Book, id: nat, aliases: seq<Text>)
    requires id in book.records && book.records[id].aliases == []
    ensures Interpret(book, Aliases(id, aliases))
            == Some(book.(records := book.records[id := book.records[id].(aliases := aliases)]))
  {
    if aliases == [] {
      assert book.records[id := book.records[id].(aliases := [])] == book.records;
    } else {
      var n := |aliases| - 1;
      InterpretAliases(book, id, aliases[..n]);
      Overwrite(book.records, id, book.records[id].(aliases := aliases[..n]), book.records[id].(aliases := aliases));
      assert Aliases(id, aliases)[..n] == Aliases(id, aliases[..n]);
      assert aliases[..n] + [aliases[n]] == aliases;
    }
  }

  lemma InterpretEntry(book: Book, id: nat, e: Entry)
    requires id > 0
    ensures Interpret(book, EntryMessages(id, e)) == Some(book.(records := book.records[id := ReceivedOf(e)]))
  {
    hide MapOf;
    var head := [Record(id, e.kind, e.name)];
    assert head[..0] == [];
    var b0 := book.(records := book.records[id := Received(e.name, e.kind, [], map[])]);
    assert Interpret(book, head) == Some(b0);
    var b1 := b0.(records := b0.records[id := b0.records[id].(aliases := e.aliases)]);
    InterpretAliases(b0, id, e.aliases);
    InterpretAppend(book, head, Aliases(id, e.aliases));
    InterpretInfos(b1, id, e.properties);
    InterpretAppend(book, head + Aliases(id, e.aliases), Infos(id, e.properties));
    assert b1.records[id := b1.records[id].(properties := MapOf(e.properties))] == book.records[id := ReceivedOf(e)];
  }

  lemma {:induction false} InterpretEntries(book: Book, entries: seq<Entry>)
    requires book.records == map[]
    ensures Interpret(book, EntriesMessages(entries)) == Some(book.(records := RecordsOf(entries)))
  {
    hide EntryMessages, ReceivedOf;
    if entries != [] {
      var before := entries[..|entries| - 1];
      InterpretEntries(book, before);
      InterpretEntry(book.(records := RecordsOf(before)), |entries|, entries[|entries| - 1]);
      InterpretAppend(book, EntriesMessages(before), EntryMessages(|entries|, entries[|entries| - 1]));
    }
  }

  /** The receiver rebuilds identity, records, alias order and properties from the messages. */
  lemma InterpretMessages(identity: seq<Property>, entries: seq<Entry>)
    ensures Interpret(Book(map[], map[]), Messages(identity, entries)) == Some(Book(MapOf(identity), RecordsOf(entries)))
  {
    hide Infos, EntriesMessages, MapOf, RecordsOf;
    InterpretIdentity(identity);
    InterpretEntries(Book(MapOf(identity), map[]), entries);
    InterpretAppend(Book(map[], map[]), Infos(0, identity), EntriesMessages(entries));
  }

  lemma {:induction false} RecordsOfIs(entries: seq<Entry>, i: nat)
    requires i < |entries|
    ensures i + 1 in RecordsOf(entries) && RecordsOf(entries)[i + 1] == ReceivedOf(entries[i])
  {
    if i < |entries| - 1 {
      RecordsOfIs(entries[..|entries| - 1], i);
    }
  }
}
