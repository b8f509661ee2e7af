/**
 * The invitation-code note overlay (src/app/api/notes/route.ts): free-text
 * notes kept in the key/value store under "invitation:note:" + code id.
 * Saving a blank note deletes the key, so a note that is present is never blank.
 */
module Notes {
  import opened Optional
  import opened Text
  import opened Json
  import opened Kv

  const NoteKeyPrefix: string := "invitation:note:"

  const MissingCodeIdError: string := "邀请码ID不能为空"
  const NoteRemovedMessage: string := "备注已删除"
  const NoteSavedMessage: string := "备注已保存"
  /** What V8 reports when a truthy non-string note reaches `note.trim()`. */
  const NoteNotStringError: string := "note.trim is not a function"

  /** The JSON bodies the handlers answer with. */
  datatype NoteResponse =
    | NoteReply(note: string)                      // GET with a code id: {success: true, note}
    | NotesReply(notes: map<string, string>)       // GET without one: {success: true, notes}
    | Written(message: string, note: string)       // POST: {success: true, message, note}
    | Removed(message: string)                     // DELETE: {success: true, message}
    | Failure(status: int, error: string)          // {success: false, error}, with that status
  {
    function Status(): int
    {
      if Failure? then status else 200
    }
  }

  /** `buildNoteKey`. */
  function BuildNoteKey(codeId: string): (key: string)
    ensures StartsWith(key, NoteKeyPrefix) && key[|NoteKeyPrefix|..] == codeId
  {
    NoteKeyPrefix + codeId
  }

  /** `extractCodeId`: the key with the first occurrence of the prefix removed. */
  function ExtractCodeId(key: string): string
  {
    ReplaceFirst(key, NoteKeyPrefix, "")
  }

  /** Extracting the code id from a built key gives the code id back. */
  lemma ExtractBuild(codeId: string)
    ensures ExtractCodeId(BuildNoteKey(codeId)) == codeId
  {
    ReplaceFirstAtStart(NoteKeyPrefix, codeId);
  }

  /** Every prefixed key is the built key of the code id extracted from it. */
  lemma BuildExtract(key: string)
    requires StartsWith(key, NoteKeyPrefix)
    ensures BuildNoteKey(ExtractCodeId(key)) == key
  {
    assert key == NoteKeyPrefix + key[|NoteKeyPrefix|..];
    ExtractBuild(key[|NoteKeyPrefix|..]);
  }

  /** The overlay's invariant: no note key holds a blank (empty or white-space) value. */
  ghost predicate NoBlankNotes(entries: map<string, string>)
  {
    forall k :: k in entries && StartsWith(k, NoteKeyPrefix) ==> !IsBlank(entries[k])
  }

  /** The decision POST takes on its `note` field. */
  datatype NoteAction = RemoveNote | SaveNote(text: string) | RejectNote

  /** `!note || note.trim() === ""` removes; a non-blank string is saved; other truthy values throw. */
  function ActionFor(note: Json): (a: NoteAction)
    ensures a.RemoveNote? <==> !Truthy(note) || (note.Str? && IsBlank(note.s))
    ensures a.SaveNote? <==> note.Str? && !IsBlank(note.s)
    ensures a.SaveNote? ==> a.text == note.s && !IsBlank(a.text)
  {
    if !Truthy(note) then RemoveNote
    else if note.Str? then (if IsBlank(note.s) then RemoveNote else SaveNote(note.s))
    else RejectNote
  }

  /**
   * GET. With a (truthy) code id: the stored note, or "" when the key is absent.
   * Without one: every note, filed under its code id.
   */
  method Get(store: KvStore, codeId: Option<string>) returns (resp: NoteResponse)
    ensures codeId.Some? && codeId.value != [] ==>
      resp == NoteReply(if BuildNoteKey(codeId.value) in store.entries then store.entries[BuildNoteKey(codeId.value)] else "")
    ensures !(codeId.Some? && codeId.value != []) ==> resp.NotesReply?
    ensures resp.NotesReply? ==> forall id :: id in resp.notes <==>
      BuildNoteKey(id) in store.entries && store.entries[BuildNoteKey(id)] != []
    ensures resp.NotesReply? ==> forall id :: id in resp.notes ==> resp.notes[id] == store.entries[BuildNoteKey(id)]
  {
    if codeId.Some? && codeId.value != [] {
      var note := store.Read(BuildNoteKey(codeId.value));
      resp := NoteReply(if note.Some? && note.value != [] then note.value else "");
      return;
    }
    var pattern := NoteKeyPrefix + "*";
    var notes := store.ReadByPattern(pattern, Some(ExtractCodeId));
    PrefixPatternSelectsNotes(store.entries);
    forall id | BuildNoteKey(id) in store.entries && store.entries[BuildNoteKey(id)] != []
      ensures id in notes && notes[id] == store.entries[BuildNoteKey(id)]
    {
      ExtractBuild(id);
      assert Rename(Some(ExtractCodeId), BuildNoteKey(id)) == id;
    }
    forall id | id in notes
      ensures BuildNoteKey(id) in store.entries && store.entries[BuildNoteKey(id)] != []
    {
      var k :| k in store.MatchingKeys(pattern) && store.entries[k] != [] && Rename(Some(ExtractCodeId), k) == id && notes[id] == store.entries[k];
      BuildExtract(k);
    }
    resp := NotesReply(notes);
  }

  /** `KEYS invitation:note:*` finds exactly the note keys, and `extractCodeId` tells them apart. */
  lemma PrefixPatternSelectsNotes(entries: map<string, string>)
    ensures forall k :: GlobMatch(NoteKeyPrefix + "*", k) <==> StartsWith(k, NoteKeyPrefix)
    ensures forall k, k' :: StartsWith(k, NoteKeyPrefix) && StartsWith(k', NoteKeyPrefix) && ExtractCodeId(k) == ExtractCodeId(k') ==> k == k'
  {
    forall k ensures GlobMatch(NoteKeyPrefix + "*", k) <==> StartsWith(k, NoteKeyPrefix) {
      PrefixPattern(NoteKeyPrefix, k);
    }
    forall k, k' | StartsWith(k, NoteKeyPrefix) && StartsWith(k', NoteKeyPrefix) && ExtractCodeId(k) == ExtractCodeId(k')
      ensures k == k'
    {
      BuildExtract(k);
      BuildExtract(k');
    }
  }

  /**
   * POST {codeId, note}. A falsy code id is refused with 400; a blank or missing
   * note deletes the key; a non-blank string note is stored as given.
   */
  method Post(store: KvStore, codeId: Json, note: Json) returns (resp: NoteResponse)
    modifies store
    ensures !Truthy(codeId) ==> resp == Failure(400, MissingCodeIdError) && store.entries == old(store.entries)
    ensures Truthy(codeId) ==>
      var key := BuildNoteKey(TemplateString(codeId));
      match ActionFor(note)
      case RemoveNote => store.entries == old(store.entries) - {key} && resp == Written(NoteRemovedMessage, "")
      case SaveNote(text) => store.entries == old(store.entries)[key := text] && resp == Written(NoteSavedMessage, text)
      case RejectNote => store.entries == old(store.entries) && resp == Failure(500, NoteNotStringError)
    ensures forall k :: k in store.entries ==>
      (k in old(store.entries) && store.entries[k] == old(store.entries)[k]) || !IsBlank(store.entries[k])
    ensures NoBlankNotes(old(store.entries)) ==> NoBlankNotes(store.entries)
  {
    if !Truthy(codeId) {
      return Failure(400, MissingCodeIdError);
    }
    var key := BuildNoteKey(TemplateString(codeId));
    match ActionFor(note)
    case RemoveNote =>
      store.Remove(key);
      resp := Written(NoteRemovedMessage, "");
    case SaveNote(text) =>
      store.Save(key, text);
      resp := Written(NoteSavedMessage, text);
    case RejectNote =>
      resp := Failure(500, NoteNotStringError);
  }

  /** DELETE ?codeId: 400 without a (truthy) code id, otherwise the key is removed. */
  method Delete(store: KvStore, codeId: Option<string>) returns (resp: NoteResponse)
    modifies store
    ensures !(codeId.Some? && codeId.value != []) ==> resp == Failure(400, MissingCodeIdError) && store.entries == old(store.entries)
    ensures codeId.Some? && codeId.value != [] ==>
      resp == Removed(NoteRemovedMessage) && store.entries == old(store.entries) - {BuildNoteKey(codeId.value)}
    ensures NoBlankNotes(old(store.entries)) ==> NoBlankNotes(store.entries)
  {
    if !(codeId.Some? && codeId.value != []) {
      return Failure(400, MissingCodeIdError);
    }
    store.Remove(BuildNoteKey(codeId.value));
    resp := Removed(NoteRemovedMessage);
  }

  /** A saved note reads back, and a second save overwrites it. */
  method SaveThenRead(store: KvStore, id: string, x: string, y: string) returns (first: NoteResponse, second: NoteResponse)
    requires id != [] && !IsBlank(x) && !IsBlank(y)
    modifies store
    ensures first == NoteReply(x) && second == NoteReply(y)
    ensures BuildNoteKey(id) in store.entries && store.entries[BuildNoteKey(id)] == y
  {
    first := SaveAndRead(store, id, x);
    second := SaveAndRead(store, id, y);
  }

  /** One save of a non-blank note and the read after it. */
  method SaveAndRead(store: KvStore, id: string, x: string) returns (r: NoteResponse)
    requires id != [] && !IsBlank(x)
    modifies store
    ensures r == NoteReply(x)
    ensures BuildNoteKey(id) in store.entries && store.entries[BuildNoteKey(id)] == x
  {
    assert x != [];
    assert ActionFor(Str(x)) == SaveNote(x);
    var w := Post(store, Str(id), Str(x));
    assert store.entries == old(store.entries)[BuildNoteKey(id) := x];
    r := Get(store, Some(id));
  }

  /**
   * Saving a note that deletes (blank, `null`, `undefined`, `""`) removes the
   * key, which then reads back as `""`, and a delete after it changes nothing.
   */
  method BlankSaveDeletes(store: KvStore, id: string, note: Json)
    returns (saved: NoteResponse, read: NoteResponse, deleted: NoteResponse)
    requires id != [] && ActionFor(note).RemoveNote?
    modifies store
    ensures saved == Written(NoteRemovedMessage, "")
    ensures read == NoteReply("")
    ensures deleted == Removed(NoteRemovedMessage)
    ensures store.entries == old(store.entries) - {BuildNoteKey(id)}
  {
    saved := Post(store, Str(id), note);
    assert store.entries == old(store.entries) - {BuildNoteKey(id)};
    read := Get(store, Some(id));
    assert BuildNoteKey(id) !in store.entries;
    var afterSave := store.entries;
    deleted := Delete(store, Some(id));
    assert store.entries == afterSave;
  }
}
