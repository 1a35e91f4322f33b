/**
 * The `useQRCodes` hook (src/hooks/use-qr-codes.ts): the signed-in user's list of saved
 * QR codes, kept in React state beside a loading flag and an error message, and the
 * four operations that call QRCodeService and then adjust the local list.
 *
 * A QR code is a document (`Doc`); its `id` is the field the hook compares. The service
 * calls are inputs: each is the reply the awaited call gives, a value or a thrown one.
 */
module QrCodesHook {
  import opened Wrappers
  import opened Database

  type QrCode = Doc

  /** What a `catch (err)` receives: an `Error` with its message, or any other value. */
  datatype Thrown = ErrorValue(message: string) | OtherValue

  /** The reply of an awaited service call. */
  datatype Reply<T> = Returned(value: T) | Threw(thrown: Thrown)

  /** `err instanceof Error ? err.message : fallback`. */
  function ErrorMessage(t: Thrown, fallback: string): string {
    if t.ErrorValue? then t.message else fallback
  }

  /** `code.id === id`. A code without an `id`, or with a non-string one, matches no id. */
  predicate HasId(code: QrCode, id: string) {
    "id" in code && code["id"] == Str(id)
  }

  // --------------------------------------------------------------------------
  // The two list transforms

  /** `codes.filter(code => code.id !== id)`. */
  function RemoveId(codes: seq<QrCode>, id: string): (r: seq<QrCode>)
    ensures |r| <= |codes|
    ensures forall c :: c in r ==> c in codes && !HasId(c, id)
  {
    if codes == [] then []
    else if HasId(codes[0], id) then RemoveId(codes[1..], id)
    else [codes[0]] + RemoveId(codes[1..], id)
  }

  /** Deleting keeps every code with another id: a code is in the result exactly when it
      was in the list and does not have the deleted id. */
  lemma {:induction false} RemoveIdKeepsOthers(codes: seq<QrCode>, id: string, c: QrCode)
    ensures c in RemoveId(codes, id) <==> c in codes && !HasId(c, id)
  {
    if codes != [] {
      RemoveIdKeepsOthers(codes[1..], id, c);
      assert codes == [codes[0]] + codes[1..];
    }
  }

  /** The filter works piece by piece, so the kept codes stay in their original order. */
  lemma {:induction false} RemoveIdAppend(a: seq<QrCode>, b: seq<QrCode>, id: string)
    ensures RemoveId(a + b, id) == RemoveId(a, id) + RemoveId(b, id)
  {
    if a == [] {
      assert a + b == b;
    } else {
      assert (a + b)[1..] == a[1..] + b;
      RemoveIdAppend(a[1..], b, id);
    }
  }

  /** A list without the id is left exactly as it was. */
  lemma {:induction false} RemoveAbsentId(codes: seq<QrCode>, id: string)
    requires forall c :: c in codes ==> !HasId(c, id)
    ensures RemoveId(codes, id) == codes
  {
    if codes != [] {
      assert codes[0] in codes;
      assert forall c :: c in codes[1..] ==> c in codes;
      RemoveAbsentId(codes[1..], id);
    }
  }

  /** Deleting twice is deleting once. */
  lemma RemoveIdIdempotent(codes: seq<QrCode>, id: string)
    ensures RemoveId(RemoveId(codes, id), id) == RemoveId(codes, id)
  {
    RemoveAbsentId(RemoveId(codes, id), id);
  }

  /** `{ ...code, ...updates }`: the update's fields override the code's own. */
  function Merge(code: QrCode, updates: Doc): QrCode {
    code + updates
  }

  /** `codes.map(code => code.id === id ? { ...code, ...updates } : code)`. */
  function MergeMatching(codes: seq<QrCode>, id: string, updates: Doc): (r: seq<QrCode>)
    ensures |r| == |codes|
  {
    if codes == [] then []
    else [if HasId(codes[0], id) then Merge(codes[0], updates) else codes[0]]
         + MergeMatching(codes[1..], id, updates)
  }

  /** Updating keeps the list's length and order: a code with another id is unchanged, and
      a code with the id keeps its other fields while every update field overrides its
      own. */
  lemma {:induction false} MergeMatchingPointwise(codes: seq<QrCode>, id: string, updates: Doc, i: int)
    requires 0 <= i < |codes|
    ensures var r := MergeMatching(codes, id, updates);
      && (!HasId(codes[i], id) ==> r[i] == codes[i])
      && (HasId(codes[i], id) ==>
            && r[i].Keys == codes[i].Keys + updates.Keys
            && (forall k :: k in updates ==> r[i][k] == updates[k])
            && (forall k :: k in codes[i] && k !in updates ==> r[i][k] == codes[i][k]))
  {
    if i > 0 {
      MergeMatchingPointwise(codes[1..], id, updates, i - 1);
    }
  }

  /** Applying the same update twice is applying it once, even when the update changes
      the `id` itself. */
  lemma {:induction false} MergeMatchingIdempotent(codes: seq<QrCode>, id: string, updates: Doc)
    ensures MergeMatching(MergeMatching(codes, id, updates), id, updates) == MergeMatching(codes, id, updates)
  {
    if codes != [] {
      var once := MergeMatching(codes, id, updates);
      assert once[1..] == MergeMatching(codes[1..], id, updates);
      MergeMatchingIdempotent(codes[1..], id, updates);
      if HasId(codes[0], id) {
        assert Merge(Merge(codes[0], updates), updates) == Merge(codes[0], updates);
      }
    }
  }

  /** An update for an id no code has leaves the list as it was. */
  lemma {:induction false} MergeAbsentId(codes: seq<QrCode>, id: string, updates: Doc)
    requires forall c :: c in codes ==> !HasId(c, id)
    ensures MergeMatching(codes, id, updates) == codes
  {
    if codes != [] {
      assert codes[0] in codes;
      assert forall c :: c in codes[1..] ==> c in codes;
      MergeAbsentId(codes[1..], id, updates);
    }
  }

  // --------------------------------------------------------------------------
  // The hook's state

  /** The result of `saveQRCode`: the new document's id, or the error it throws. */
  datatype SaveResult = Saved(id: string) | NotSignedIn | SaveThrew(thrown: Thrown)

  /** The result of `deleteQRCode` and `updateQRCode`: they either finish or rethrow. */
  datatype CallResult = Finished | Rethrew(thrown: Thrown)

  /** The hook's state for the signed-in `user` (None when signed out). */
  class QrCodeList {
    const user: Option<string>
    var qrCodes: seq<QrCode>
    var loading: bool
    var error: Option<string>

    /** The initial state: an empty list, loading, no error. */
    constructor (user: Option<string>)
      ensures this.user == user && qrCodes == [] && loading && error.None?
    {
      this.user := user;
      qrCodes := [];
      loading := true;
      error := None;
    }

    /** `loadQRCodes`: signed out, the list is emptied without a fetch; otherwise the
        fetched codes replace the list and clear the error, or a failure sets the error and
        keeps the list. Loading ends either way. */
    method LoadQrCodes(fetched: Reply<seq<QrCode>>)
      modifies this
      ensures !loading
      ensures user.None? ==> qrCodes == [] && error == old(error)
      ensures user.Some? && fetched.Returned? ==> qrCodes == fetched.value && error.None?
      ensures user.Some? && fetched.Threw? ==>
        qrCodes == old(qrCodes) && error == Some(ErrorMessage(fetched.thrown, "Failed to load QR codes"))
    {
      if user.None? {
        qrCodes := [];
        loading := false;
        return;
      }
      loading := true;
      if fetched.Returned? {
        qrCodes := fetched.value;
        error := None;
      } else {
        error := Some(ErrorMessage(fetched.thrown, "Failed to load QR codes"));
      }
      loading := false;
    }

    /** `saveQRCode`: signed out, it throws before anything is created. Otherwise the
        record sent to `QRCodeService.create` is the data with `userId` set to the current
        user; on success the list is reloaded and the new id returned, on failure the error
        is set and rethrown and the list is kept. */
    method SaveQrCode(data: Doc, created: Reply<string>, fetched: Reply<seq<QrCode>>)
      returns (result: SaveResult, sent: Option<Doc>)
      modifies this
      ensures user.None? ==>
                result == NotSignedIn && sent.None?
                && qrCodes == old(qrCodes) && loading == old(loading) && error == old(error)
      ensures user.Some? ==> sent == Some(data["userId" := Str(user.value)])
      ensures user.Some? && created.Returned? ==>
                result == Saved(created.value) && !loading
                && (fetched.Returned? ==> qrCodes == fetched.value && error.None?)
                && (fetched.Threw? ==>
                      qrCodes == old(qrCodes) && error == Some(ErrorMessage(fetched.thrown, "Failed to load QR codes")))
      ensures user.Some? && created.Threw? ==>
                result == SaveThrew(created.thrown)
                && qrCodes == old(qrCodes) && loading == old(loading)
                && error == Some(ErrorMessage(created.thrown, "Failed to save QR code"))
    {
      if user.None? {
        return NotSignedIn, None;
      }
      var record := data + map["userId" := Str(user.value)];
      assert record == data["userId" := Str(user.value)];
      sent := Some(record);
      if created.Threw? {
        error := Some(ErrorMessage(created.thrown, "Failed to save QR code"));
        return SaveThrew(created.thrown), sent;
      }
      LoadQrCodes(fetched);
      result := Saved(created.value);
    }

    /** `deleteQRCode`: after the service deletes the document, every code with that id
        leaves the list; on failure the list is kept and the error is set and rethrown. */
    method DeleteQrCode(id: string, deleted: Reply<()>) returns (result: CallResult)
      modifies this
      ensures loading == old(loading)
      ensures deleted.Returned? ==> result == Finished && qrCodes == RemoveId(old(qrCodes), id) && error == old(error)
      ensures deleted.Threw? ==>
                result == Rethrew(deleted.thrown) && qrCodes == old(qrCodes)
                && error == Some(ErrorMessage(deleted.thrown, "Failed to delete QR code"))
    {
      if deleted.Threw? {
        error := Some(ErrorMessage(deleted.thrown, "Failed to delete QR code"));
        return Rethrew(deleted.thrown);
      }
      qrCodes := RemoveId(qrCodes, id);
      result := Finished;
    }

    /** `updateQRCode`: after the service updates the document, the matching codes take
        the update's fields; on failure the list is kept and the error is set and
        rethrown. */
    method UpdateQrCode(id: string, updates: Doc, updated: Reply<()>) returns (result: CallResult)
      modifies this
      ensures loading == old(loading)
      ensures updated.Returned? ==>
                result == Finished && qrCodes == MergeMatching(old(qrCodes), id, updates) && error == old(error)
      ensures updated.Threw? ==>
                result == Rethrew(updated.thrown) && qrCodes == old(qrCodes)
                && error == Some(ErrorMessage(updated.thrown, "Failed to update QR code"))
    {
      if updated.Threw? {
        error := Some(ErrorMessage(updated.thrown, "Failed to update QR code"));
        return Rethrew(updated.thrown);
      }
      qrCodes := MergeMatching(qrCodes, id, updates);
      result := Finished;
    }
  }
}
