/** The image bucket: promotion of a staging object, best-effort discard, deletion. */
module ObjectStore {
  import opened Options
  import opened Text

  datatype StoreError = KeyRequired | SameKey | ObjectNotFound

  /** Promote, when the store answers every call: the new bucket and the error, if any. */
  function Promoted(objects: set<string>, sourceKey: string, destKey: string): (set<string>, Option<StoreError>) {
    var source, dest := TrimSpace(sourceKey), TrimSpace(destKey);
    if source == "" || dest == "" then (objects, Some(KeyRequired))
    else if source == dest then (objects, Some(SameKey))
    else if dest in objects then (objects, None)
    else if source !in objects then (objects, Some(ObjectNotFound))
    else (objects + {dest}, None)
  }

  function Removed(objects: set<string>, key: string): set<string> {
    if TrimSpace(key) == "" then objects else objects - {TrimSpace(key)}
  }

  /** After a successful promotion the destination exists, nothing has gone, and at most the
      destination is new; promoting again succeeds even without the source. */
  lemma PromotionIsIdempotent(objects: set<string>, sourceKey: string, destKey: string)
    requires Promoted(objects, sourceKey, destKey).1.None?
    ensures
      var after := Promoted(objects, sourceKey, destKey).0;
      && objects <= after <= objects + {TrimSpace(destKey)}
      && TrimSpace(destKey) in after
      && Promoted(Removed(after, sourceKey), sourceKey, destKey) == (Removed(after, sourceKey), None)
  {
    hide TrimSpace;
  }

  class Bucket {
    var objects: set<string>

    constructor (initial: set<string>)
      ensures objects == initial
    {
      objects := initial;
    }

    method Promote(sourceKey: string, destKey: string) returns (error: Option<StoreError>)
      modifies this
      ensures (objects, error) == Promoted(old(objects), sourceKey, destKey)
      ensures
        var source, dest := TrimSpace(sourceKey), TrimSpace(destKey);
        var usable := source != "" && dest != "" && source != dest;
        && (error.None? <==> usable && (dest in old(objects) || source in old(objects)))
        && (error == Some(ObjectNotFound) <==> usable && dest !in old(objects) && source !in old(objects))
        && objects == if error.None? then old(objects) + {dest} else old(objects)
    {
      var source := TrimSpace(sourceKey);
      var dest := TrimSpace(destKey);
      if source == "" || dest == "" {
        return Some(KeyRequired);
      }
      if source == dest {
        return Some(SameKey);
      }
      if dest in objects {
        return None;
      }
      if source !in objects {
        return Some(ObjectNotFound);
      }
      objects := objects + {dest};
      return None;
    }

    /** Discard and Delete on a store that answers. */
    method Remove(objectKey: string)
      modifies this
      ensures objects == Removed(old(objects), objectKey)
    {
      var key := TrimSpace(objectKey);
      if key == "" {
        return;
      }
      objects := objects - {key};
    }
  }
}
