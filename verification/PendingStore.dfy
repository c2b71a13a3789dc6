/**
 `MobilePendingCommerceStore`: the device's text slot and the photo files beside it. The
 text is the only durable copy of a command; every method reads it back before it writes.
 Each method is proved against the slot operations of `PendingSlot`, so what is proved of
 the protocol over those operations holds of this class for every record the slot can read.
 */
module PendingStore {
  import opened Wrappers
  import opened Utf16
  import opened Json
  import opened JsonFacts
  import opened PendingController
  import opened PendingCodec
  import opened PendingForms
  import opened PendingSlot

  /** A command given back to a controller after a restart. */
  datatype RestoredCommand =
    RestoredCommand(scope: Scope, path: Text, body: Text, key: Text, incident: Option<Incident>)

  /** A photo file holds at most 40000 bytes, 53336 characters of base64. */
  const MAX_BASE64 := 53336

  type Files = map<Text, Text>

  predicate Base64Files(photos: Files) {
    forall uri :: uri in photos ==> AsciiText(photos[uri])
  }

  /** `readBase64`: `None` where it throws. */
  function ReadBase64(photos: Files, uri: Text): Option<Text> {
    if uri in photos && |photos[uri]| <= MAX_BASE64 then Some(photos[uri]) else None
  }

  /** The body of an upload, from its picture. */
  function UploadBody(base64: Text): Text
    requires AllUnits(base64)
  {
    UploadUnits(base64);
    Stringify(UploadJson(base64))
  }

  function UploadJson(base64: Text): Json {
    JObject(Member(CONTENT_TYPE, JString(JPEG), Member(CONTENT, JString(base64), NoMembers)))
  }

  lemma UploadUnits(base64: Text)
    requires AllUnits(base64)
    ensures WellFormed(UploadJson(base64))
  {
    assert AsciiText(CONTENT_TYPE) && AsciiText(CONTENT) && AsciiText(JPEG);
    assert WellFormedMembers(NoMembers);
    StringMember(CONTENT, base64, NoMembers);
    StringMember(CONTENT_TYPE, JPEG, Member(CONTENT, JString(base64), NoMembers));
  }

  /** What `stored` gives: nothing, a record, or an exception for unreadable text. */
  function Current(text: Option<Text>): Result<Option<Stored>, ()> {
    if text.None? then Ok(None)
    else
      var r := ParseStored(text.value);
      if r.None? then Err(()) else Ok(r)
  }

  /** `restore`. */
  function Restore(text: Option<Text>, photos: Files, expected: Scope): Result<Option<RestoredCommand>, ()>
    requires Base64Files(photos)
  {
    var current := Current(text);
    if current.Err? then Err(())
    else if current.value.None? || current.value.value.scope != expected then Ok(None)
    else
      var s := current.value.value;
      if s.path == EVIDENCE then
        if s.incident.None? then Err(())
        else
          var base64 := ReadBase64(photos, s.incident.value.photoUri);
          if base64.None? then Err(())
          else Ok(Some(RestoredCommand(s.scope, s.path, UploadBody(base64.value), s.key, s.incident)))
      else if s.body.None? then Err(())
      else Ok(Some(RestoredCommand(s.scope, s.path, s.body.value, s.key, s.incident)))
  }

  lemma UploadNames()
    ensures CONTENT_TYPE != CONTENT
  {
    assert CONTENT_TYPE[7] == 'T' as int && CONTENT[7] == 'B' as int;
  }

  lemma UploadFields(base64: Text)
    ensures var m := UploadJson(base64).members;
            Lookup(m, CONTENT_TYPE) == Some(JString(JPEG)) && Lookup(m, CONTENT) == Some(JString(base64))
  {
    UploadNames();
    hide Ascii;
    var rest := Member(CONTENT, JString(base64), NoMembers);
    assert Lookup(rest, CONTENT_TYPE).None? && Lookup(rest, CONTENT) == Some(JString(base64));
  }

  /** What the screen uploads passes the check the store makes on an upload. */
  lemma UploadIsEvidence(base64: Text)
    requires AllUnits(base64)
    ensures EvidenceBody(UploadBody(base64))
  {
    UploadUnits(base64);
    UploadFields(base64);
    RoundTrip(UploadJson(base64));
    hide Parse, Stringify, Ascii, Lookup, WellFormed;
  }

  /** A restore gives back the very path, body and key that were saved. The body of an upload
      is rebuilt from its photo file; it is the saved one as long as the file holds the
      picture the command was made from. Saving the restored command makes the same record,
      so it is accepted and writes nothing. */
  lemma SavedIsRestored(saved: RestoredCommand, photos: Files)
    requires AllUnits(saved.path) && AllUnits(saved.body) && Base64Files(photos)
    requires var r := MakeRecord(saved.scope, saved.path, saved.body, saved.key, saved.incident);
             && r.Some? && Storable(r.value) && |Print(r.value)| <= MAX_RECORD
    requires saved.path == EVIDENCE && saved.incident.Some? ==>
               && var base64 := ReadBase64(photos, saved.incident.value.photoUri);
                  base64.Some? && saved.body == UploadBody(base64.value)
    ensures var r := MakeRecord(saved.scope, saved.path, saved.body, saved.key, saved.incident);
            && Restore(Some(Print(r.value)), photos, saved.scope) == Ok(Some(saved))
            && PendingSlot.Save(r, r.value, Working) == Outcome(r, true)
  {
    var r := MakeRecord(saved.scope, saved.path, saved.body, saved.key, saved.incident).value;
    PrintedRecord(r);
    hide Print, ParseStored, UploadBody, Stable, Target, AllowedPath, IsUuid, IncidentOk, EvidenceBody, Storable;
    assert Current(Some(Print(r))) == Ok(Some(r));
  }

  /** What a screen asks the store to keep: a form's body, or the body of an upload. */
  datatype ScreenBody = FromForm(form: Form) | FromPhoto(base64: Text)

  function BodyOf(b: ScreenBody): Text
    requires if b.FromForm? then WellFormedMembers(Fields(b.form)) else AllUnits(b.base64)
  {
    match b
    case FromForm(f) => Stringify(JObject(Fields(f)))
    case FromPhoto(base64) => UploadBody(base64)
  }

  /** The form is within its screen's limits, or the file holds the picture of the upload. */
  predicate FromScreen(b: ScreenBody, path: Text, incident: Option<Incident>, photos: Files)
    requires Base64Files(photos)
  {
    match b
    case FromForm(f) => FormOk(f) && path != EVIDENCE && (incident.Some? ==> Small(f))
    case FromPhoto(base64) =>
      AllUnits(base64) && path == EVIDENCE && incident.Some? && ReadBase64(photos, incident.value.photoUri) == Some(base64)
  }

  /** Every command a screen builds survives a restart. If the store takes it, the text it
      writes gives back the identical path, body, key and context, and the restored command
      can be saved again without another write. */
  lemma SaveThenRestore(b: ScreenBody, scope: Scope, path: Text, key: Text, incident: Option<Incident>, photos: Files)
    requires AllUnits(path) && Base64Files(photos) && FromScreen(b, path, incident, photos)
    ensures b.FromForm? ==> WellFormedMembers(Fields(b.form))
    ensures var saved := RestoredCommand(scope, path, BodyOf(b), key, incident);
            var r := MakeRecord(scope, path, saved.body, key, incident);
            r.Some? ==>
              && Restore(Some(Print(r.value)), photos, scope) == Ok(Some(saved))
              && PendingSlot.Save(Current(Some(Print(r.value))).value, r.value, Working) == Outcome(r, true)
  {
    if b.FromForm? { FormsStayReadable(b.form, scope, path, key, incident); } else { UploadUnits(b.base64); }
    var saved := RestoredCommand(scope, path, BodyOf(b), key, incident);
    assert AllUnits(saved.body);
    var r := MakeRecord(scope, path, saved.body, key, incident);
    if r.Some? {
      assert b.FromPhoto? ==> scope == Incidents;
      if b.FromPhoto? { UploadsStayReadable(path, saved.body, key, incident); }
      assert Storable(r.value) && ParseStored(Print(r.value)) == r;
      assert |Print(r.value)| <= MAX_RECORD;
      hide MakeRecord, Print, ParseStored, Storable, UploadBody, Fields, FormOk, Small, BodyOf, Stringify;
      SavedIsRestored(saved, photos);
      assert Current(Some(Print(r.value))) == Ok(r);
    }
  }

  class MobilePendingCommerceStore {
    var text: Option<Text>
    var photos: Files

    constructor ()
      ensures text == None && photos == map[]
    {
      text, photos := None, map[];
    }

    method Stored() returns (r: Result<Option<Stored>, ()>)
      ensures r == Current(text)
    {
      if text.None? {
        return Ok(None);
      }
      var parsed := ParseStored(text.value);
      if parsed.None? {
        return Err(());
      }
      return Ok(parsed);
    }

    /** `ok` is false where the client throws; then nothing was written. */
    method Save(scope: Scope, path: Text, body: Text, key: Text, incident: Option<Incident>) returns (ok: bool)
      requires AllUnits(path) && AllUnits(body)
      modifies this`text
      ensures var r := MakeRecord(scope, path, body, key, incident);
              var before := Current(old(text));
              if r.None? || before.Err? then !ok && text == old(text)
              else
                && Storable(r.value)
                && ok == PendingSlot.Save(before.value, r.value, Working).ok
                && ok == (before.value.None? || before.value == r)
                && text == (if before.value.None? then Some(Print(r.value)) else old(text))
                && (|Print(r.value)| <= MAX_RECORD ==>
                    Current(text) == Ok(PendingSlot.Save(before.value, r.value, Working).slot))
    {
      var r := MakeRecord(scope, path, body, key, incident);
      if r.None? {
        return false;
      }
      RecordsAreStorable(scope, path, body, key, incident);
      hide MakeRecord, ParseStored, Print, Storable;
      PrintedRecord(r.value);
      var existing := Stored();
      if existing.Err? {
        return false;
      }
      if existing.value.Some? {
        return existing.value == r;
      }
      text := Some(Print(r.value));
      return true;
    }

    method Advance(expectedKey: Text, scope: Scope, path: Text, body: Text, key: Text, incident: Option<Incident>)
      returns (ok: bool)
      requires AllUnits(path) && AllUnits(body)
      modifies this`text
      ensures var r := MakeRecord(scope, path, body, key, incident);
              var before := Current(old(text));
              if !IsId(expectedKey) || before.Err? || r.None? then !ok && text == old(text)
              else
                var held := before.value.Some? && before.value.value.key == expectedKey;
                && Storable(r.value)
                && ok == held
                && text == (if held then Some(Print(r.value)) else old(text))
                && (|Print(r.value)| <= MAX_RECORD ==>
                    Current(text) == Ok(PendingSlot.Advance(before.value, held, r.value, Working).slot))
    {
      if !IsId(expectedKey) {
        return false;
      }
      var existing := Stored();
      var r := MakeRecord(scope, path, body, key, incident);
      if r.Some? {
        RecordsAreStorable(scope, path, body, key, incident);
        PrintedRecord(r.value);
      }
      hide MakeRecord, ParseStored, Print, Storable, IsUuid;
      if existing.Err? || existing.value.None? || existing.value.value.key != expectedKey || r.None? {
        return false;
      }
      text := Some(Print(r.value));
      return true;
    }

    method Restored(expected: Scope) returns (r: Result<Option<RestoredCommand>, ()>)
      requires Base64Files(photos)
      ensures r == Restore(text, photos, expected)
    {
      hide ParseStored, UploadBody;
      var stored := Stored();
      if stored.Err? {
        return Err(());
      }
      if stored.value.None? || stored.value.value.scope != expected {
        return Ok(None);
      }
      var s := stored.value.value;
      if s.path == EVIDENCE {
        if s.incident.None? {
          return Err(());
        }
        var base64 := ReadBase64(photos, s.incident.value.photoUri);
        if base64.None? {
          return Err(());
        }
        return Ok(Some(RestoredCommand(s.scope, s.path, UploadBody(base64.value), s.key, s.incident)));
      }
      if s.body.None? {
        return Err(());
      }
      return Ok(Some(RestoredCommand(s.scope, s.path, s.body.value, s.key, s.incident)));
    }

    /** The record goes first and its photo second, so a crash between the two leaves an
        orphan file and never a record without its photo. */
    method Clear(expectedKey: Text) returns (r: Result<bool, ()>)
      modifies this
      ensures var before := Current(old(text));
              if !IsId(expectedKey) then r == Ok(false) && text == old(text) && photos == old(photos)
              else if before.Err? then r == Err(()) && text == old(text) && photos == old(photos)
              else
                var held := before.value.Some? && before.value.value.key == expectedKey;
                && Current(text) == Ok(PendingSlot.Clear(before.value, held, Working).slot)
                && r == Ok(PendingSlot.Clear(before.value, held, Working).ok)
                && r == Ok(before.value.None? || held)
                && text == (if held then None else old(text))
                && photos == (if held && before.value.value.incident.Some?
                              then old(photos) - {before.value.value.incident.value.photoUri} else old(photos))
    {
      hide ParseStored, IsUuid;
      if !IsId(expectedKey) {
        return Ok(false);
      }
      var stored := Stored();
      if stored.Err? {
        return Err(());
      }
      if stored.value.None? {
        return Ok(true);
      }
      if stored.value.value.key != expectedKey {
        return Ok(false);
      }
      text := None;
      if stored.value.value.incident.Some? {
        photos := photos - {stored.value.value.incident.value.photoUri};
      }
      return Ok(true);
    }

    /** At startup every photo but the stored command's is deleted. Unreadable text keeps all. */
    method CleanupPhotos() returns (ok: bool)
      modifies this`photos
      ensures ok == Current(text).Ok?
      ensures ok ==>
                forall uri :: uri in photos <==>
                  && uri in old(photos) && Current(text).value.Some?
                  && Current(text).value.value.incident.Some?
                  && Current(text).value.value.incident.value.photoUri == uri
      ensures !ok ==> photos == old(photos)
      ensures forall uri :: uri in photos ==> photos[uri] == old(photos)[uri]
    {
      hide ParseStored;
      var stored := Stored();
      if stored.Err? {
        return false;
      }
      if stored.value.Some? && stored.value.value.incident.Some?
         && stored.value.value.incident.value.photoUri in photos {
        var uri := stored.value.value.incident.value.photoUri;
        photos := map[uri := photos[uri]];
      } else {
        photos := map[];
      }
      return true;
    }
  }
}
