/** The funding-source blocklist: its list, its index, and adding and removing entries (`src/blocklist.rs`). */
module Blocklist {
  import opened Common

  type Script = nat

  /** Address parsing on one network: the script an address pays, if it is one. */
  type Parser = string -> Option<Script>

  /** `extra` holds the fields a newer build wrote. */
  datatype Entry = Entry(address: string, note: Option<string>, extra: map<string, string>)

  datatype Document = Document(needs: seq<string>, entries: seq<Entry>, extra: map<string, string>)

  const NO_DOCUMENT := Document([], [], map[])

  type Index = map<Script, Entry>

  // ---------------------------------------------------------------- the index of a list

  function IndexOne(index: Index, entry: Entry, parse: Parser): Index {
    match parse(entry.address)
    case Some(script) => index[script := entry]
    case None => index
  }

  function IndexEntries(entries: seq<Entry>, parse: Parser): Index
    decreases |entries|
  {
    if entries == [] then map[] else IndexOne(IndexEntries(entries[..|entries| - 1], parse), entries[|entries| - 1], parse)
  }

  /** The last entry of the list for this script. */
  predicate IsLastMatch(entries: seq<Entry>, parse: Parser, script: Script, i: nat) {
    i < |entries| && parse(entries[i].address) == Some(script)
    && forall j :: i < j < |entries| ==> parse(entries[j].address) != Some(script)
  }

  /** Looking up a script gives the last matching list entry, and nothing exactly when none matches. */
  lemma {:induction false} LookupIsLastMatch(entries: seq<Entry>, parse: Parser, script: Script)
    ensures script in IndexEntries(entries, parse) <==> exists i :: 0 <= i < |entries| && parse(entries[i].address) == Some(script)
    ensures forall i: nat :: IsLastMatch(entries, parse, script, i) ==>
              script in IndexEntries(entries, parse) && IndexEntries(entries, parse)[script] == entries[i]
    decreases |entries|
  {
    if entries != [] {
      var shorter, last := entries[..|entries| - 1], entries[|entries| - 1];
      LookupIsLastMatch(shorter, parse, script);
      forall i: nat | IsLastMatch(entries, parse, script, i)
        ensures script in IndexEntries(entries, parse) && IndexEntries(entries, parse)[script] == entries[i]
      {
        if i < |entries| - 1 {
          assert parse(entries[|entries| - 1].address) != Some(script);
          assert IsLastMatch(shorter, parse, script, i);
        }
      }
      if parse(last.address) == Some(script) {
        assert entries[|entries| - 1] == last;
      } else if script in IndexEntries(shorter, parse) {
        var i :| 0 <= i < |shorter| && parse(shorter[i].address) == Some(script);
        assert entries[i] == shorter[i];
      } else {
        assert forall i :: 0 <= i < |shorter| ==> entries[i] == shorter[i];
      }
    }
  }

  /** `index_entries`, one entry at a time. */
  method BuildIndex(entries: seq<Entry>, parse: Parser) returns (index: Index)
    ensures index == IndexEntries(entries, parse)
  {
    index := map[];
    for i := 0 to |entries|
      invariant index == IndexEntries(entries[..i], parse)
    {
      assert entries[..i + 1][..i] == entries[..i];
      var script := parse(entries[i].address);
      if script.Some? {
        index := index[script.value := entries[i]];
      }
    }
    assert entries[..|entries|] == entries;
  }

  /** Every entry is filed under the script of its own address. */
  predicate Filed(index: Index, parse: Parser) {
    forall script :: script in index ==> parse(index[script].address) == Some(script)
  }

  lemma {:induction false} IndexIsFiled(entries: seq<Entry>, parse: Parser)
    ensures Filed(IndexEntries(entries, parse), parse)
    decreases |entries|
  {
    if entries != [] {
      IndexIsFiled(entries[..|entries| - 1], parse);
    }
  }

  /** The index written out as a list, in any order. */
  predicate Lists(entries: seq<Entry>, index: Index) {
    (forall i :: 0 <= i < |entries| ==> entries[i] in index.Values) && forall script :: script in index ==> index[script] in entries
  }

  /** Whatever order the index is written in, reading it back gives the same index. */
  lemma RewriteReindexes(entries: seq<Entry>, index: Index, parse: Parser)
    requires Filed(index, parse) && Lists(entries, index)
    ensures IndexEntries(entries, parse) == index
  {
    var again := IndexEntries(entries, parse);
    forall script
      ensures script in again <==> script in index
      ensures script in again ==> again[script] == index[script]
    {
      LookupIsLastMatch(entries, parse, script);
      if script in index {
        var i :| 0 <= i < |entries| && entries[i] == index[script];
        assert parse(entries[i].address) == Some(script);
      }
      if script in again {
        var k := LastMatch(entries, parse, script);
        assert entries[k] in index.Values;
        var key :| key in index && index[key] == entries[k];
        assert key == script;
      }
    }
  }

  lemma {:induction false} LastMatch(entries: seq<Entry>, parse: Parser, script: Script) returns (i: nat)
    requires exists i :: 0 <= i < |entries| && parse(entries[i].address) == Some(script)
    ensures IsLastMatch(entries, parse, script, i)
    decreases |entries|
  {
    if parse(entries[|entries| - 1].address) == Some(script) {
      i := |entries| - 1;
    } else {
      var shorter := entries[..|entries| - 1];
      var j :| 0 <= j < |entries| && parse(entries[j].address) == Some(script);
      assert shorter[j] == entries[j];
      i := LastMatch(shorter, parse, script);
    }
  }

  // ---------------------------------------------------------------- adding and removing

  datatype Outcome = Outcome(added: nat, updated: nat)

  /** A replaced entry keeps the unknown fields of the old one that the new one does not have. */
  function Merged(entry: Entry, old': Entry): Entry {
    entry.(extra := old'.extra + entry.extra)
  }

  function AddOne(index: Index, script: Script, entry: Entry): Index {
    index[script := if script in index then Merged(entry, index[script]) else entry]
  }

  /** All addresses parse. */
  predicate AllParse(addresses: seq<string>, parse: Parser) {
    forall i :: 0 <= i < |addresses| ==> parse(addresses[i]).Some?
  }

  function Addresses(entries: seq<Entry>): seq<string> {
    seq(|entries|, i requires 0 <= i < |entries| => entries[i].address)
  }

  predicate EntriesParse(entries: seq<Entry>, parse: Parser) {
    forall i :: 0 <= i < |entries| ==> parse(entries[i].address).Some?
  }

  function Added(index: Index, entries: seq<Entry>, parse: Parser): Index
    requires EntriesParse(entries, parse)
    decreases |entries|
  {
    if entries == [] then index
    else
      var last := entries[|entries| - 1];
      AddOne(Added(index, entries[..|entries| - 1], parse), parse(last.address).value, last)
  }

  function Removed(index: Index, addresses: seq<string>, parse: Parser): Index
    requires AllParse(addresses, parse)
    decreases |addresses|
  {
    if addresses == [] then index
    else Removed(index, addresses[..|addresses| - 1], parse) - {parse(addresses[|addresses| - 1]).value}
  }

  /** Adding gives the new label and address, keeps every unknown field, and leaves other scripts alone. */
  lemma AddKeepsUnknownFields(index: Index, script: Script, entry: Entry)
    ensures var after := AddOne(index, script, entry);
            && script in after && after[script].address == entry.address && after[script].note == entry.note
            && (forall key :: key in entry.extra ==> key in after[script].extra && after[script].extra[key] == entry.extra[key])
            && (script in index ==> forall key :: key in index[script].extra && key !in entry.extra ==>
                  key in after[script].extra && after[script].extra[key] == index[script].extra[key])
            && after - {script} == index - {script}
  {
  }

  /** Entry `i` is the last one for this script that brings the field `key`. */
  predicate IsLastField(entries: seq<Entry>, parse: Parser, script: Script, key: string, i: nat) {
    && i < |entries| && parse(entries[i].address) == Some(script) && key in entries[i].extra
    && forall j :: i < j < |entries| && parse(entries[j].address) == Some(script) ==> key !in entries[j].extra
  }

  predicate Names(entries: seq<Entry>, parse: Parser, script: Script) {
    exists i :: 0 <= i < |entries| && parse(entries[i].address) == Some(script)
  }

  /** Some entry for this script brings the field `key`. */
  predicate Brings(entries: seq<Entry>, parse: Parser, script: Script, key: string) {
    exists i :: 0 <= i < |entries| && parse(entries[i].address) == Some(script) && key in entries[i].extra
  }

  /** The last entry decides what a longer list names, and what it brings. */
  lemma OneEntryMore(entries: seq<Entry>, last: Entry, parse: Parser, script: Script, key: string)
    ensures Names(entries + [last], parse, script) <==> Names(entries, parse, script) || parse(last.address) == Some(script)
    ensures Brings(entries + [last], parse, script, key) <==>
              Brings(entries, parse, script, key) || (parse(last.address) == Some(script) && key in last.extra)
    ensures forall i: nat :: IsLastMatch(entries + [last], parse, script, i) ==>
              if parse(last.address) == Some(script) then i == |entries| else IsLastMatch(entries, parse, script, i)
    ensures forall i: nat :: IsLastField(entries + [last], parse, script, key, i) ==>
              if parse(last.address) == Some(script) && key in last.extra then i == |entries| else IsLastField(entries, parse, script, key, i)
  {
    var longer := entries + [last];
    assert longer[|entries|] == last && forall i :: 0 <= i < |entries| ==> longer[i] == entries[i];
  }

  lemma LastAdded(index: Index, entries: seq<Entry>, parse: Parser, script: Script)
    requires entries != [] && EntriesParse(entries, parse)
    ensures var (shorter, last) := (entries[..|entries| - 1], entries[|entries| - 1]);
            var (before, after) := (Added(index, shorter, parse), Added(index, entries, parse));
            && entries == shorter + [last] && EntriesParse(shorter, parse)
            && if parse(last.address) == Some(script) then
                 script in after && after[script] == if script in before then last.(extra := before[script].extra + last.extra) else last
               else (script in after <==> script in before) && (script in after ==> after[script] == before[script])
  {
  }

  /** What adding a whole list leaves of a script: the last entry's address and note, or what was there when none names it. */
  lemma {:induction false} AddedIsLastEntry(index: Index, entries: seq<Entry>, parse: Parser, script: Script)
    requires EntriesParse(entries, parse)
    ensures var after := Added(index, entries, parse);
            && (script in after <==> script in index || Names(entries, parse, script))
            && (script in after && !Names(entries, parse, script) ==> after[script] == index[script])
            && forall i: nat :: IsLastMatch(entries, parse, script, i) ==>
                 script in after && after[script].address == entries[i].address && after[script].note == entries[i].note
    decreases |entries|
  {
    if entries != [] {
      hide Added, Names, IsLastMatch, EntriesParse;
      LastAdded(index, entries, parse, script);
      AddedIsLastEntry(index, entries[..|entries| - 1], parse, script);
      OneEntryMore(entries[..|entries| - 1], entries[|entries| - 1], parse, script, "");
      MatchInside(entries[..|entries| - 1], parse, script);
    }
  }

  lemma MatchInside(entries: seq<Entry>, parse: Parser, script: Script)
    ensures forall i: nat :: IsLastMatch(entries, parse, script, i) ==> i < |entries|
    ensures forall key, i: nat :: IsLastField(entries, parse, script, key, i) ==> i < |entries| && key in entries[i].extra
  {
  }

  /** And of its unknown fields: each from the last entry that brings it, and the old one where none does. None is lost. */
  lemma {:induction false} AddedKeepsFields(index: Index, entries: seq<Entry>, parse: Parser, script: Script, key: string)
    requires EntriesParse(entries, parse) && script in Added(index, entries, parse)
    ensures var fields := Added(index, entries, parse)[script].extra;
            && (key in fields <==> (script in index && key in index[script].extra) || Brings(entries, parse, script, key))
            && (key in fields && !Brings(entries, parse, script, key) ==> fields[key] == index[script].extra[key])
            && forall i: nat :: IsLastField(entries, parse, script, key, i) ==>
                 i < |entries| && key in fields && key in entries[i].extra && fields[key] == entries[i].extra[key]
    decreases |entries|
  {
    if entries != [] {
      hide Added, Names, IsLastMatch, IsLastField, Brings, EntriesParse;
      var shorter := entries[..|entries| - 1];
      LastAdded(index, entries, parse, script);
      OneEntryMore(shorter, entries[|entries| - 1], parse, script, key);
      MatchInside(shorter, parse, script);
      if script in Added(index, shorter, parse) {
        AddedKeepsFields(index, shorter, parse, script, key);
      } else {
        AddedIsLastEntry(index, shorter, parse, script);
        UnnamedBringsNothing(shorter, parse, script, key);
      }
    }
  }

  lemma UnnamedBringsNothing(entries: seq<Entry>, parse: Parser, script: Script, key: string)
    requires !Names(entries, parse, script)
    ensures !Brings(entries, parse, script, key) && forall i: nat :: !IsLastField(entries, parse, script, key, i)
  {
  }

  lemma {:induction false} AddedIsFiled(index: Index, entries: seq<Entry>, parse: Parser)
    requires EntriesParse(entries, parse) && Filed(index, parse)
    ensures Filed(Added(index, entries, parse), parse)
    decreases |entries|
  {
    if entries != [] {
      AddedIsFiled(index, entries[..|entries| - 1], parse);
    }
  }

  lemma {:induction false} RemovedIsPart(index: Index, addresses: seq<string>, parse: Parser)
    requires AllParse(addresses, parse)
    ensures forall script :: script in Removed(index, addresses, parse) <==>
              script in index && forall i :: 0 <= i < |addresses| ==> parse(addresses[i]) != Some(script)
    ensures forall script :: script in Removed(index, addresses, parse) ==> Removed(index, addresses, parse)[script] == index[script]
    decreases |addresses|
  {
    if addresses != [] {
      RemovedIsPart(index, addresses[..|addresses| - 1], parse);
    }
  }

  /** `validate_all`: the scripts, or nothing if any address does not parse. */
  method ValidateAll(addresses: seq<string>, parse: Parser) returns (scripts: Option<seq<Script>>)
    ensures scripts.Some? <==> AllParse(addresses, parse)
    ensures scripts.Some? ==> |scripts.value| == |addresses| && forall i :: 0 <= i < |addresses| ==> parse(addresses[i]) == Some(scripts.value[i])
  {
    var found: seq<Script>, rejected := [], 0;
    for i := 0 to |addresses|
      invariant rejected == 0 ==> |found| == i && forall j :: 0 <= j < i ==> parse(addresses[j]) == Some(found[j])
      invariant rejected > 0 ==> exists j :: 0 <= j < i && parse(addresses[j]).None?
    {
      var script := parse(addresses[i]);
      if script.Some? {
        found := found + [script.value];
      } else {
        rejected := rejected + 1;
      }
    }
    return if rejected == 0 then Some(found) else None;
  }

  /** Takes the scripts out one by one and counts those that were there. */
  method RemoveScripts(start: Index, addresses: seq<string>, scripts: seq<Script>, parse: Parser) returns (current: Index, removed: nat)
    requires |scripts| == |addresses| && forall i :: 0 <= i < |addresses| ==> parse(addresses[i]) == Some(scripts[i])
    ensures current == Removed(start, addresses, parse) && |start| == |current| + removed
  {
    current, removed := start, 0;
    for i := 0 to |addresses|
      invariant current == Removed(start, addresses[..i], parse) && |start| == |current| + removed
    {
      assert addresses[..i + 1][..i] == addresses[..i];
      var script := scripts[i];
      assert Removed(start, addresses[..i + 1], parse) == current - {script};
      RemoveShrinks(current, script);
      removed := if script in current then removed + 1 else removed;
      current := current - {script};
    }
    assert addresses[..|addresses|] == addresses;
  }

  /** The file the processes share. */
  class SharedFile {
    var content: Option<Document>

    constructor ()
      ensures content == None
    {
      content := None;
    }
  }

  /** Reads the document, or the empty one when there is no file; refused when it needs a name this build lacks. */
  function ReadDocument(content: Option<Document>, supported: set<string>): Result<Document> {
    match content
    case None => Ok(NO_DOCUMENT)
    case Some(document) =>
      if forall i :: 0 <= i < |document.needs| ==> document.needs[i] in supported then Ok(document)
      else Err("needs a newer build")
  }

  /** The in-memory index over the shared file. */
  class AddressBlocklist {
    const file: SharedFile
    const parse: Parser
    const supported: set<string>
    var inner: Index

    constructor (file: SharedFile, parse: Parser, supported: set<string>)
      ensures this.file == file && this.parse == parse && this.supported == supported && inner == map[]
    {
      this.file, this.parse, this.supported, inner := file, parse, supported, map[];
    }

    method Load() returns (ok: bool)
      modifies this
      ensures ok <==> file.content.None? || forall name :: name in file.content.value.needs ==> name in supported
      ensures ok == ReadDocument(file.content, supported).Ok?
      ensures inner == if ok then IndexEntries(ReadDocument(file.content, supported).value.entries, parse) else old(inner)
    {
      var document := ReadDocument(file.content, supported);
      if document.Err? {
        return false;
      }
      inner := BuildIndex(document.value.entries, parse);
      return true;
    }

    /**
     Writes the index out in some order, with the document's other fields as they were. `written` is
     the answer of the atomic write; when it fails, the file and the index are as they were.
     */
    method Commit(document: Document, entries: Index, written: bool)
      modifies this, file
      ensures !written ==> file.content == old(file.content) && inner == old(inner)
      ensures written ==> inner == entries && file.content.Some?
      ensures written ==> file.content.value == document.(entries := file.content.value.entries) && Lists(file.content.value.entries, entries)
    {
      var list: seq<Entry> := [];
      var left := entries.Keys;
      while left != {}
        invariant left <= entries.Keys && file.content == old(file.content) && inner == old(inner)
        invariant forall i :: 0 <= i < |list| ==> list[i] in entries.Values
        invariant forall script :: script in entries.Keys - left ==> entries[script] in list
        decreases left
      {
        var script :| script in left;
        assert entries[script] in entries.Values;
        list := list + [entries[script]];
        left := left - {script};
      }
      if written {
        file.content := Some(document.(entries := list));
        inner := entries;
      }
    }

    /** Adds or replaces entries; the counts are the change of the index. `locked` and `written` are the answers of the lock and the write. */
    method Add(entries: seq<Entry>, locked: bool, written: bool) returns (r: Result<Outcome>)
      modifies this, file
      ensures r.Ok? <==> EntriesParse(entries, parse) && locked && ReadDocument(old(file.content), supported).Ok? && written
      ensures r.Err? ==> file.content == old(file.content) && inner == old(inner)
      ensures r.Ok? ==>
                var before := ReadDocument(old(file.content), supported).value;
                && inner == Added(IndexEntries(before.entries, parse), entries, parse)
                && file.content.Some? && file.content.value == before.(entries := file.content.value.entries)
                && IndexEntries(file.content.value.entries, parse) == inner
                && |inner| == |IndexEntries(before.entries, parse)| + r.value.added && r.value.added + r.value.updated == |entries|
    {
      var scripts := ValidateAll(Addresses(entries), parse);
      AddressesParse(entries, parse);
      if scripts.None? {
        return Err("address rejected, nothing written");
      }
      if !locked {
        return Err("could not take the lock");
      }
      var document := ReadDocument(file.content, supported);
      if document.Err? {
        return Err(document.reason);
      }
      var current := BuildIndex(document.value.entries, parse);
      ghost var start := current;
      var added, updated := 0, 0;
      for i := 0 to |entries|
        invariant file.content == old(file.content) && inner == old(inner)
        invariant current == Added(start, entries[..i], parse)
        invariant |current| == |start| + added && added + updated == i
      {
        assert entries[..i + 1][..i] == entries[..i];
        assert parse(Addresses(entries)[i]) == Some(scripts.value[i]);
        var script := scripts.value[i];
        var entry := entries[i];
        if script in current {
          entry := entry.(extra := current[script].extra + entry.extra);
          updated := updated + 1;
        } else {
          added := added + 1;
        }
        current := current[script := entry];
      }
      assert entries[..|entries|] == entries;
      IndexIsFiled(document.value.entries, parse);
      AddedIsFiled(start, entries, parse);
      Commit(document.value, current, written);
      if !written {
        return Err("could not write the file");
      }
      RewriteReindexes(file.content.value.entries, current, parse);
      return Ok(Outcome(added, updated));
    }

    /** Removes addresses; the count is how much the index shrank. */
    method Remove(addresses: seq<string>, locked: bool, written: bool) returns (r: Result<nat>)
      modifies this, file
      ensures r.Ok? <==> AllParse(addresses, parse) && locked && ReadDocument(old(file.content), supported).Ok? && written
      ensures r.Err? ==> file.content == old(file.content) && inner == old(inner)
      ensures r.Ok? ==>
                var before := ReadDocument(old(file.content), supported).value;
                && inner == Removed(IndexEntries(before.entries, parse), addresses, parse)
                && file.content.Some? && file.content.value == before.(entries := file.content.value.entries)
                && IndexEntries(file.content.value.entries, parse) == inner
                && |IndexEntries(before.entries, parse)| == |inner| + r.value
    {
      var scripts := ValidateAll(addresses, parse);
      if scripts.None? {
        return Err("address rejected, nothing written");
      }
      if !locked {
        return Err("could not take the lock");
      }
      var document := ReadDocument(file.content, supported);
      if document.Err? {
        return Err(document.reason);
      }
      var start := BuildIndex(document.value.entries, parse);
      var current, removed := RemoveScripts(start, addresses, scripts.value, parse);
      IndexIsFiled(document.value.entries, parse);
      RemovedIsPart(start, addresses, parse);
      Commit(document.value, current, written);
      if !written {
        return Err("could not write the file");
      }
      RewriteReindexes(file.content.value.entries, current, parse);
      return Ok(removed);
    }
  }

  lemma RemoveShrinks(index: Index, script: Script)
    ensures |index| == |index - {script}| + if script in index then 1 else 0
  {
    if script !in index {
      assert index - {script} == index;
    }
  }

  lemma AddressesParse(entries: seq<Entry>, parse: Parser)
    ensures AllParse(Addresses(entries), parse) <==> EntriesParse(entries, parse)
  {
    if AllParse(Addresses(entries), parse) {
      forall i | 0 <= i < |entries|
        ensures parse(entries[i].address).Some?
      {
        assert Addresses(entries)[i] == entries[i].address;
      }
    }
  }
}
