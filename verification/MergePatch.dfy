/** JSON documents and the merge patch used by group profile and policy updates. */
module MergePatch {
  import opened Common

  /** The words group documents are made of. */
  datatype Word =
    | MessageSecurityProfile | BootstrapSecurityProfile | AdmissionMode | Permissions | AttachmentsAllowed | MaxMembers
    | SendPermission | AddPermission | RemovePermission | UpdateProfilePermission | UpdatePolicyPermission
    | TransportProtected | OpenJoinMode | AdminAddMode
    | MemberName | AdminName | OwnerName
    | Discoverability | PublicName | ListedName | PrivateName

  /** A member name or string: a word of the group vocabulary, or any other text. */
  datatype Name = Known(word: Word) | Text(text: string)

  datatype Json =
    | Null
    | Bool(b: bool)
    | Num(n: int)
    | Str(s: Name)
    | Arr(items: seq<Json>)
    | Obj(fields: map<Name, Json>)

  function Fields(doc: Json): map<Name, Json> {
    if doc.Obj? then doc.fields else map[]
  }

  /** `result.get(key)`: an absent key reads as null. */
  function Get(fields: map<Name, Json>, key: Name): Json {
    if key in fields then fields[key] else Null
  }

  /** The order-free meaning of a merge patch (section 2 of RFC 7396). */
  function Merge(doc: Json, patch: Json): Json
    decreases patch
  {
    if !patch.Obj? then patch
    else
      var base := Fields(doc);
      Obj(map k | k in base.Keys + patch.fields.Keys && (k in patch.fields ==> patch.fields[k] != Null) ::
        if k in patch.fields then Merge(Get(base, k), patch.fields[k]) else base[k])
  }

  lemma {:induction false} MergeMember(doc: Json, patch: Json, k: Name)
    requires patch.Obj?
    ensures Merge(doc, patch).Obj?
    ensures k in Merge(doc, patch).fields <==>
            if k in patch.fields then patch.fields[k] != Null else k in Fields(doc)
    ensures k in Merge(doc, patch).fields ==>
              Merge(doc, patch).fields[k] ==
              if k in patch.fields then Merge(Get(Fields(doc), k), patch.fields[k]) else Fields(doc)[k]
  {
  }

  /** The loop of `_merge_patch` with the members in `todo` still to be visited. */
  ghost predicate Halfway(doc: Json, patch: Json, fields: map<Name, Json>, todo: set<Name>)
    requires patch.Obj?
  {
    && fields.Keys == (Fields(doc).Keys * todo) + (Merge(doc, patch).fields.Keys - todo)
    && forall k :: k in fields ==> fields[k] == if k in todo then Fields(doc)[k] else Merge(doc, patch).fields[k]
  }

  lemma VisitMember(doc: Json, patch: Json, fields: map<Name, Json>, todo: set<Name>, key: Name,
                    value: Json)
    requires patch.Obj? && key in todo && todo <= patch.fields.Keys
    requires Halfway(doc, patch, fields, todo)
    ensures Get(fields, key) == Get(Fields(doc), key)
    ensures patch.fields[key] == Null ==> Halfway(doc, patch, fields - {key}, todo - {key})
    ensures patch.fields[key] != Null && value == Merge(Get(Fields(doc), key), patch.fields[key]) ==>
              Halfway(doc, patch, fields[key := value], todo - {key})
  {
    MergeMember(doc, patch, key);
  }

  lemma VisitFirst(doc: Json, patch: Json)
    requires patch.Obj?
    ensures Halfway(doc, patch, Fields(doc), patch.fields.Keys)
  {
    var merged := Merge(doc, patch).fields;
    forall k ensures k !in patch.fields ==> (k in merged <==> k in Fields(doc)) {
      MergeMember(doc, patch, k);
    }
    forall k | k in Fields(doc) && k !in patch.fields ensures merged[k] == Fields(doc)[k] {
      MergeMember(doc, patch, k);
    }
  }

  lemma VisitLast(doc: Json, patch: Json, fields: map<Name, Json>)
    requires patch.Obj? && Halfway(doc, patch, fields, {})
    ensures Obj(fields) == Merge(doc, patch)
  {
    assert fields == Merge(doc, patch).fields;
  }

  /** `_merge_patch`: one pass over the patch members, updating a copy of the document in place. */
  method MergePatchInPlace(doc: Json, patch: Json) returns (result: Json)
    ensures result == Merge(doc, patch)
    decreases patch
  {
    if !patch.Obj? {
      return patch;
    }
    var fields, todo := Fields(doc), patch.fields.Keys;
    VisitFirst(doc, patch);
    while todo != {}
      invariant todo <= patch.fields.Keys && Halfway(doc, patch, fields, todo)
      decreases |todo|
    {
      var key :| key in todo;
      var value := Null;
      if patch.fields[key] == Null {
        VisitMember(doc, patch, fields, todo, key, value);
        fields := fields - {key};
      } else {
        value := MergePatchInPlace(Get(fields, key), patch.fields[key]);
        VisitMember(doc, patch, fields, todo, key, value);
        fields := fields[key := value];
      }
      todo := todo - {key};
    }
    VisitLast(doc, patch, fields);
    result := Obj(fields);
  }

  lemma {:induction false} MergeIsIdempotent(doc: Json, patch: Json)
    ensures Merge(Merge(doc, patch), patch) == Merge(doc, patch)
    decreases patch
  {
    if patch.Obj? {
      var once := Merge(doc, patch);
      var twice := Merge(once, patch);
      forall k
        ensures k in twice.fields <==> k in once.fields
        ensures k in once.fields ==> twice.fields[k] == once.fields[k]
      {
        MergeMember(doc, patch, k);
        MergeMember(once, patch, k);
        if k in patch.fields {
          MergeIsIdempotent(Get(Fields(doc), k), patch.fields[k]);
        }
      }
      assert twice.fields == once.fields;
    }
  }

  /**
   * `target` holds a null member only where `doc` already does: a patch cannot write a null into
   * an object, only leave one alone.
   */
  ghost predicate Reachable(doc: Json, target: Json)
    decreases target
  {
    target.Obj? ==>
      forall k :: k in target.fields ==>
        && (target.fields[k] == Null ==> k in Fields(doc) && Fields(doc)[k] == Null)
        && Reachable(Get(Fields(doc), k), target.fields[k])
  }

  /** A patch from `doc` to `target`: untouched members are omitted, vanished ones are null. */
  function Diff(doc: Json, target: Json): Json
    decreases target
  {
    if !target.Obj? then target
    else
      Obj(map k | k in Fields(doc).Keys + target.fields.Keys
                  && !(k in Fields(doc) && k in target.fields && Fields(doc)[k] == target.fields[k]) ::
        if k in target.fields then Diff(Get(Fields(doc), k), target.fields[k]) else Null)
  }

  lemma {:induction false} DiffOfReachable(doc: Json, target: Json)
    requires Reachable(doc, target)
    ensures Merge(doc, Diff(doc, target)) == target
    decreases target
  {
    if target.Obj? {
      var patch := Diff(doc, target);
      var merged := Merge(doc, patch);
      forall k
        ensures k in merged.fields <==> k in target.fields
        ensures k in target.fields ==> merged.fields[k] == target.fields[k]
      {
        MergeMember(doc, patch, k);
        if k in target.fields && k in patch.fields {
          DiffOfReachable(Get(Fields(doc), k), target.fields[k]);
          MergeIsNull(Get(Fields(doc), k), patch.fields[k]);
        }
      }
      assert merged.fields == target.fields;
    }
  }

  lemma {:induction false} AnythingReachesItself(doc: Json)
    ensures Reachable(doc, doc)
    decreases doc
  {
    if doc.Obj? {
      forall k | k in doc.fields
        ensures Reachable(doc.fields[k], doc.fields[k])
      {
        AnythingReachesItself(doc.fields[k]);
      }
    }
  }

  lemma {:induction false} MergedIsReachable(doc: Json, patch: Json)
    ensures Reachable(doc, Merge(doc, patch))
    decreases patch
  {
    var target := Merge(doc, patch);
    if patch.Obj? {
      forall k | k in target.fields
        ensures target.fields[k] == Null ==> k in Fields(doc) && Fields(doc)[k] == Null
        ensures Reachable(Get(Fields(doc), k), target.fields[k])
      {
        if k in patch.fields {
          MergedIsReachable(Get(Fields(doc), k), patch.fields[k]);
          MergeIsNull(Get(Fields(doc), k), patch.fields[k]);
        } else {
          AnythingReachesItself(Fields(doc)[k]);
        }
      }
    }
  }

  lemma MergeIsNull(doc: Json, patch: Json)
    ensures Merge(doc, patch) == Null <==> patch == Null
  {
  }

  /** The documents some patch can produce are exactly the reachable ones, and Diff finds the patch. */
  lemma PatchExistsIffReachable(doc: Json, target: Json)
    ensures (exists patch :: Merge(doc, patch) == target) <==> Reachable(doc, target)
    ensures (exists patch :: Merge(doc, patch) == target) <==> Merge(doc, Diff(doc, target)) == target
  {
    if exists patch :: Merge(doc, patch) == target {
      var patch :| Merge(doc, patch) == target;
      MergedIsReachable(doc, patch);
    }
    if Reachable(doc, target) {
      DiffOfReachable(doc, target);
    }
  }

  /** No object anywhere in the document holds a null member. */
  ghost predicate NullFree(doc: Json)
    decreases doc
  {
    doc.Obj? ==> forall k :: k in doc.fields ==> doc.fields[k] != Null && NullFree(doc.fields[k])
  }

  lemma {:induction false} NullFreeIsReachable(doc: Json, target: Json)
    requires NullFree(target)
    ensures Reachable(doc, target)
    ensures Merge(doc, Diff(doc, target)) == target
    decreases target
  {
    if target.Obj? {
      forall k | k in target.fields
        ensures Reachable(Get(Fields(doc), k), target.fields[k])
      {
        NullFreeIsReachable(Get(Fields(doc), k), target.fields[k]);
      }
    }
    DiffOfReachable(doc, target);
  }
}
