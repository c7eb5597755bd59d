/**
 * JSON values, and rebasing a draft's versions onto an acknowledged profile (lib/profile-drafts.ts). An
 * undefined member counts as absent, and a `version` member as a leaf.
 */
module Rebase {
  import opened Options

  datatype Json =
    | Null | Bool(b: bool) | Num(n: int) | Str(s: string) | Arr(items: seq<Json>) | Obj(fields: seq<Field>)

  datatype Field = Field(name: string, value: Json)

  function Lookup(fields: seq<Field>, name: string): Option<Json> {
    if fields == [] then None else if fields[0].name == name then Some(fields[0].value) else Lookup(fields[1..], name)
  }

  /** Assigning a member keeps its place, or appends it. */
  function Assign(fields: seq<Field>, name: string, value: Json): seq<Field> {
    if fields == [] then [Field(name, value)]
    else if fields[0].name == name then [Field(name, value)] + fields[1..]
    else [fields[0]] + Assign(fields[1..], name, value)
  }

  function Without(fields: seq<Field>, name: string): seq<Field> {
    if fields == [] then []
    else if fields[0].name == name then Without(fields[1..], name)
    else [fields[0]] + Without(fields[1..], name)
  }

  function IdOf(fields: seq<Field>): Option<string> {
    var id := Lookup(fields, "id");
    if id.Some? && id.value.Str? then Some(id.value.s) else None
  }

  predicate HasState(fields: seq<Field>) {
    Lookup(fields, "state").Some?
  }

  type Versions = map<string, seq<Field>>

  /** The objects with an id, the last of each; nothing below an object with a state is looked at. */
  function Collect(j: Json, found: Versions): Versions
    decreases j
  {
    match j
    case Arr(items) => CollectItems(items, found)
    case Obj(fields) =>
      var id := IdOf(fields);
      var own := if id.Some? then found[id.value := fields] else found;
      if HasState(fields) then own else CollectFields(fields, own)
    case _ => found
  }

  function CollectItems(items: seq<Json>, found: Versions): Versions
    decreases items
  {
    if items == [] then found
    else CollectItems(items[1..], Collect(items[0], found))
  }

  function CollectFields(fields: seq<Field>, found: Versions): Versions
    decreases fields
  {
    if fields == [] then found
    else CollectFields(fields[1..], Collect(fields[0].value, found))
  }

  /** A version is read off the acknowledged object, 1 when it has none. */
  function VersionOf(ack: Option<seq<Field>>): Json {
    if ack.None? then Num(1)
    else
      var v := Lookup(ack.value, "version");
      if v.None? || v.value.Null? then Num(1) else v.value
  }

  function Content(fields: seq<Field>): seq<Field> {
    Without(Without(fields, "version"), "confirmedAt")
  }

  predicate IsVersioned(fields: seq<Field>) {
    IdOf(fields).Some? && Lookup(fields, "version").Some? && Lookup(fields, "version").value.Num?
  }

  function AckOf(versions: Versions, fields: seq<Field>): Option<seq<Field>>
    requires IdOf(fields).Some?
  {
    var id := IdOf(fields).value;
    if id in versions then Some(versions[id]) else None
  }

  /** The members of one object rebased: its version, and its confirmation when its content is the acknowledged one. */
  function RebasedFields(versions: Versions, fields: seq<Field>): seq<Field> {
    if !IsVersioned(fields) then fields
    else
      var ack := AckOf(versions, fields);
      var versioned := Assign(fields, "version", VersionOf(ack));
      if ack.Some? && HasState(fields) && Content(versioned) == Content(ack.value) then
        var confirmed := Lookup(ack.value, "confirmedAt");
        if confirmed.Some? then Assign(versioned, "confirmedAt", confirmed.value) else Without(versioned, "confirmedAt")
      else versioned
  }

  function Rebased(versions: Versions, j: Json): Json
    decreases j
  {
    match j
    case Arr(items) => Arr(RebasedItems(versions, items))
    case Obj(fields) =>
      if HasState(fields) then Obj(RebasedFields(versions, fields))
      else Obj(RebasedFields(versions, RebasedMembers(versions, fields)))
    case _ => j
  }

  function RebasedItems(versions: Versions, items: seq<Json>): (r: seq<Json>)
    decreases items
  {
    if items == [] then [] else [Rebased(versions, items[0])] + RebasedItems(versions, items[1..])
  }

  function RebasedMembers(versions: Versions, fields: seq<Field>): (r: seq<Field>)
    decreases fields
  {
    if fields == [] then []
    else [Field(fields[0].name, Rebased(versions, fields[0].value))] + RebasedMembers(versions, fields[1..])
  }

  /** `rebaseVersions(desired, acknowledged)`. */
  function RebaseVersions(desired: Json, acknowledged: Json): Json {
    Rebased(Collect(acknowledged, map[]), desired)
  }

  // ----------------------------------------------------------------------------------------
  // Rebasing changes versions only
  // ----------------------------------------------------------------------------------------

  /** The value without the members rebasing may touch. */
  function Stripped(j: Json): Json
    decreases j
  {
    match j
    case Arr(items) => Arr(StrippedItems(items))
    case Obj(fields) => Obj(Content(if HasState(fields) then fields else StrippedMembers(fields)))
    case _ => j
  }

  function StrippedItems(items: seq<Json>): seq<Json>
    decreases items
  {
    if items == [] then [] else [Stripped(items[0])] + StrippedItems(items[1..])
  }

  function StrippedMembers(fields: seq<Field>): seq<Field>
    decreases fields
  {
    if fields == [] then [] else [Field(fields[0].name, Stripped(fields[0].value))] + StrippedMembers(fields[1..])
  }

  lemma {:induction false} LookupAssigned(fields: seq<Field>, name: string, value: Json, other: string)
    ensures Lookup(Assign(fields, name, value), other) == if other == name then Some(value) else Lookup(fields, other)
    decreases |fields|
  {
    if fields != [] && fields[0].name != name {
      LookupAssigned(fields[1..], name, value, other);
      assert Assign(fields, name, value)[1..] == Assign(fields[1..], name, value);
    } else if fields != [] {
      assert Assign(fields, name, value)[1..] == fields[1..];
    }
  }

  lemma {:induction false} LookupWithout(fields: seq<Field>, name: string, other: string)
    ensures Lookup(Without(fields, name), other) == if other == name then None else Lookup(fields, other)
    decreases |fields|
  {
    if fields != [] {
      LookupWithout(fields[1..], name, other);
      assert fields[0].name != name ==> Without(fields, name)[1..] == Without(fields[1..], name);
    }
  }

  lemma {:induction false} WithoutAssigned(fields: seq<Field>, name: string, value: Json)
    ensures Without(Assign(fields, name, value), name) == Without(fields, name)
    decreases |fields|
  {
    if fields != [] {
      if fields[0].name == name {
        assert Assign(fields, name, value)[1..] == fields[1..];
      } else {
        WithoutAssigned(fields[1..], name, value);
        assert Assign(fields, name, value)[1..] == Assign(fields[1..], name, value);
      }
    }
  }

  lemma {:induction false} WithoutCommutes(fields: seq<Field>, a: string, b: string)
    ensures Without(Without(fields, a), b) == Without(Without(fields, b), a)
    decreases |fields|
  {
    if fields != [] {
      WithoutCommutes(fields[1..], a, b);
      assert fields[0].name != a ==> Without(fields, a)[1..] == Without(fields[1..], a);
      assert fields[0].name != b ==> Without(fields, b)[1..] == Without(fields[1..], b);
    }
  }

  lemma {:induction false} WithoutTwice(fields: seq<Field>, name: string)
    ensures Without(Without(fields, name), name) == Without(fields, name)
    decreases |fields|
  {
    if fields != [] {
      WithoutTwice(fields[1..], name);
      assert fields[0].name != name ==> Without(fields, name)[1..] == Without(fields[1..], name);
    }
  }

  lemma ContentOfVersioned(fields: seq<Field>, value: Json)
    ensures Content(Assign(fields, "version", value)) == Content(fields)
  {
    WithoutAssigned(fields, "version", value);
  }

  lemma ContentOfConfirmed(fields: seq<Field>, value: Json)
    ensures Content(Assign(fields, "confirmedAt", value)) == Content(fields)
    ensures Content(Without(fields, "confirmedAt")) == Content(fields)
  {
    WithoutCommutes(Assign(fields, "confirmedAt", value), "version", "confirmedAt");
    WithoutAssigned(fields, "confirmedAt", value);
    WithoutCommutes(fields, "version", "confirmedAt");
    WithoutCommutes(Without(fields, "confirmedAt"), "version", "confirmedAt");
    WithoutTwice(fields, "confirmedAt");
  }

  /** Rebasing one object keeps its content, its id and whether it has a state. */
  lemma RebasedContent(versions: Versions, fields: seq<Field>)
    ensures var r := RebasedFields(versions, fields);
      && Content(r) == Content(fields) && IdOf(r) == IdOf(fields) && HasState(r) == HasState(fields)
  {
    if IsVersioned(fields) {
      var ack := AckOf(versions, fields);
      var versioned := Assign(fields, "version", VersionOf(ack));
      ContentOfVersioned(fields, VersionOf(ack));
      LookupAssigned(fields, "version", VersionOf(ack), "id");
      LookupAssigned(fields, "version", VersionOf(ack), "state");
      var confirmed := if ack.Some? then Lookup(ack.value, "confirmedAt") else None;
      var value := if confirmed.Some? then confirmed.value else Null;
      ContentOfConfirmed(versioned, value);
      LookupAssigned(versioned, "confirmedAt", value, "id");
      LookupAssigned(versioned, "confirmedAt", value, "state");
      LookupWithout(versioned, "confirmedAt", "id");
      LookupWithout(versioned, "confirmedAt", "state");
    }
  }

  lemma {:induction false} StrippedAssigned(fields: seq<Field>, name: string, value: Json)
    ensures StrippedMembers(Assign(fields, name, value)) == Assign(StrippedMembers(fields), name, Stripped(value))
    decreases |fields|
  {
    if fields != [] {
      if fields[0].name == name {
        assert Assign(fields, name, value)[1..] == fields[1..];
      } else {
        StrippedAssigned(fields[1..], name, value);
        assert Assign(fields, name, value)[1..] == Assign(fields[1..], name, value);
        assert StrippedMembers(fields)[1..] == StrippedMembers(fields[1..]);
      }
    }
  }

  /** Leaves keep their members' places, so looking one up commutes with rebasing the members. */
  lemma {:induction false} LookupRebased(versions: Versions, fields: seq<Field>, name: string)
    ensures var a, b := Lookup(fields, name), Lookup(RebasedMembers(versions, fields), name);
      (a.Some? <==> b.Some?) && (a.Some? ==> b.value == Rebased(versions, a.value))
    decreases |fields|
  {
    if fields != [] {
      LookupRebased(versions, fields[1..], name);
      assert RebasedMembers(versions, fields)[1..] == RebasedMembers(versions, fields[1..]);
    }
  }

  /** Rebasing changes nothing but versions and confirmations. */
  lemma {:induction false} RebasedKeepsContent(versions: Versions, j: Json)
    ensures Stripped(Rebased(versions, j)) == Stripped(j)
    decreases j
  {
    match j
    case Arr(items) => ItemsKeepContent(versions, items);
    case Obj(fields) =>
      if HasState(fields) {
        RebasedContent(versions, fields);
      } else {
        var members := RebasedMembers(versions, fields);
        MembersKeepContent(versions, fields);
        LookupRebased(versions, fields, "state");
        RebasedContent(versions, members);
        if IsVersioned(members) {
          var version := VersionOf(AckOf(versions, members));
          StrippedAssigned(members, "version", version);
          ContentOfVersioned(StrippedMembers(members), Stripped(version));
        }
      }
    case _ =>
  }

  lemma {:induction false} ItemsKeepContent(versions: Versions, items: seq<Json>)
    ensures StrippedItems(RebasedItems(versions, items)) == StrippedItems(items)
    decreases items
  {
    if items != [] {
      RebasedKeepsContent(versions, items[0]);
      ItemsKeepContent(versions, items[1..]);
      assert RebasedItems(versions, items)[1..] == RebasedItems(versions, items[1..]);
    }
  }

  lemma {:induction false} MembersKeepContent(versions: Versions, fields: seq<Field>)
    ensures StrippedMembers(RebasedMembers(versions, fields)) == StrippedMembers(fields)
    decreases fields
  {
    if fields != [] {
      RebasedKeepsContent(versions, fields[0].value);
      MembersKeepContent(versions, fields[1..]);
      assert RebasedMembers(versions, fields)[1..] == RebasedMembers(versions, fields[1..]);
    }
  }

  /** The draft the applicant sees is the one they wrote: a rebase leaves every other member in its place. */
  lemma RebaseKeepsDraft(desired: Json, acknowledged: Json)
    ensures Stripped(RebaseVersions(desired, acknowledged)) == Stripped(desired)
  {
    RebasedKeepsContent(Collect(acknowledged, map[]), desired);
  }

  // ----------------------------------------------------------------------------------------
  // What a rebased object carries
  // ----------------------------------------------------------------------------------------

  /** The objects of a value in the order they are met; nothing below an object with a state is looked at. */
  function Objects(j: Json): seq<seq<Field>>
    decreases j
  {
    match j
    case Arr(items) => ObjectsOfItems(items)
    case Obj(fields) => [fields] + if HasState(fields) then [] else ObjectsOfMembers(fields)
    case _ => []
  }

  function ObjectsOfItems(items: seq<Json>): seq<seq<Field>>
    decreases items
  {
    if items == [] then [] else Objects(items[0]) + ObjectsOfItems(items[1..])
  }

  function ObjectsOfMembers(fields: seq<Field>): seq<seq<Field>>
    decreases fields
  {
    if fields == [] then [] else Objects(fields[0].value) + ObjectsOfMembers(fields[1..])
  }

  /** The last of some objects with an id. */
  function LastWith(objects: seq<seq<Field>>, id: string): Option<seq<Field>> {
    if objects == [] then None
    else if IdOf(objects[|objects| - 1]) == Some(id) then Some(objects[|objects| - 1])
    else LastWith(objects[..|objects| - 1], id)
  }

  lemma {:induction false} LastOfMore(objects: seq<seq<Field>>, more: seq<seq<Field>>, id: string)
    ensures LastWith(objects + more, id) == if LastWith(more, id).Some? then LastWith(more, id) else LastWith(objects, id)
  {
    if more == [] {
      assert objects + more == objects;
    } else {
      assert (objects + more)[..|objects + more| - 1] == objects + more[..|more| - 1];
      LastOfMore(objects, more[..|more| - 1], id);
    }
  }

  function Found(versions: Versions, id: string): Option<seq<Field>> {
    if id in versions then Some(versions[id]) else None
  }

  lemma {:induction false} CollectFindsLast(j: Json, found: Versions, id: string)
    ensures Found(Collect(j, found), id) == if LastWith(Objects(j), id).Some? then LastWith(Objects(j), id) else Found(found, id)
    decreases j
  {
    match j
    case Arr(items) => ItemsFindLast(items, found, id);
    case Obj(fields) =>
      assert [fields][..0] == [];
      var own := if IdOf(fields).Some? then found[IdOf(fields).value := fields] else found;
      if HasState(fields) {
        assert [fields] + [] == [fields];
      } else {
        MembersFindLast(fields, own, id);
        LastOfMore([fields], ObjectsOfMembers(fields), id);
      }
    case _ =>
  }

  lemma {:induction false} ItemsFindLast(items: seq<Json>, found: Versions, id: string)
    ensures Found(CollectItems(items, found), id) ==
            if LastWith(ObjectsOfItems(items), id).Some? then LastWith(ObjectsOfItems(items), id) else Found(found, id)
    decreases items
  {
    if items != [] {
      CollectFindsLast(items[0], found, id);
      ItemsFindLast(items[1..], Collect(items[0], found), id);
      LastOfMore(Objects(items[0]), ObjectsOfItems(items[1..]), id);
    }
  }

  lemma {:induction false} MembersFindLast(fields: seq<Field>, found: Versions, id: string)
    ensures Found(CollectFields(fields, found), id) ==
            if LastWith(ObjectsOfMembers(fields), id).Some? then LastWith(ObjectsOfMembers(fields), id) else Found(found, id)
    decreases fields
  {
    if fields != [] {
      CollectFindsLast(fields[0].value, found, id);
      MembersFindLast(fields[1..], Collect(fields[0].value, found), id);
      LastOfMore(Objects(fields[0].value), ObjectsOfMembers(fields[1..]), id);
    }
  }

  /** The object that a path of places leads to without passing an object with a state, if it leads to one. */
  function ObjectAt(j: Json, path: seq<nat>): Option<seq<Field>>
    decreases |path|
  {
    match j
    case Arr(items) => if path == [] || path[0] >= |items| then None else ObjectAt(items[path[0]], path[1..])
    case Obj(fields) =>
      if path == [] then Some(fields)
      else if HasState(fields) || path[0] >= |fields| then None
      else ObjectAt(fields[path[0]].value, path[1..])
    case _ => None
  }

  /** The version that the acknowledged object has, 1 when there is none or it has none. */
  predicate CarriesVersion(r: seq<Field>, ack: Option<seq<Field>>) {
    var acknowledged := if ack.Some? then Lookup(ack.value, "version") else None;
    && (acknowledged.Some? && acknowledged.value != Null ==> Lookup(r, "version") == acknowledged)
    && (acknowledged.None? || acknowledged.value == Null ==> Lookup(r, "version") == Some(Num(1)))
  }

  /** The member with a name, rebased in turn where the rebase goes on below. */
  function MemberRebased(fields: seq<Field>, name: string, acknowledged: Json): Option<Json> {
    var m := Lookup(fields, name);
    if HasState(fields) || m.None? then m else Some(RebaseVersions(m.value, acknowledged))
  }

  /**
   * What becomes of an object that a rebase meets. A versioned one carries the version of the last acknowledged object
   * with its id; if it has a state and that object's content, its confirmation too. Every other member stays.
   */
  ghost predicate RebasedOnto(fields: seq<Field>, r: seq<Field>, acknowledged: Json) {
    var ack := if IsVersioned(fields) then LastWith(Objects(acknowledged), IdOf(fields).value) else None;
    var confirms := HasState(fields) && ack.Some? && Content(fields) == Content(ack.value);
    && (IsVersioned(fields) ==> CarriesVersion(r, ack))
    && (confirms ==> Lookup(r, "confirmedAt") == Lookup(ack.value, "confirmedAt"))
    && (forall name: string :: !(name == "version" && IsVersioned(fields)) && !(name == "confirmedAt" && confirms) ==>
          Lookup(r, name) == MemberRebased(fields, name, acknowledged))
  }

  lemma VersionIsAssigned(versions: Versions, fields: seq<Field>, name: string)
    requires IsVersioned(fields)
    ensures var ack := AckOf(versions, fields);
      var versioned := Assign(fields, "version", VersionOf(ack));
      && Content(versioned) == Content(fields) && HasState(versioned) == HasState(fields)
      && Lookup(versioned, name) == if name == "version" then Some(VersionOf(ack)) else Lookup(fields, name)
  {
    var v := VersionOf(AckOf(versions, fields));
    ContentOfVersioned(fields, v);
    LookupAssigned(fields, "version", v, "state");
    LookupAssigned(fields, "version", v, name);
  }

  /** The members of one object with its version and its confirmation written. */
  lemma FieldsAreRebased(versions: Versions, fields: seq<Field>, name: string)
    ensures var r := RebasedFields(versions, fields);
      if !IsVersioned(fields) then r == fields
      else
        var ack := AckOf(versions, fields);
        var confirms := HasState(fields) && ack.Some? && Content(fields) == Content(ack.value);
        Lookup(r, name) == if name == "version" then Some(VersionOf(ack))
                           else if name == "confirmedAt" && confirms then Lookup(ack.value, name) else Lookup(fields, name)
  {
    if IsVersioned(fields) {
      var ack := AckOf(versions, fields);
      var versioned := Assign(fields, "version", VersionOf(ack));
      VersionIsAssigned(versions, fields, name);
      var confirmed := if ack.Some? then Lookup(ack.value, "confirmedAt") else None;
      var value := if confirmed.Some? then confirmed.value else Null;
      hide IsVersioned, AckOf, VersionOf, Content, HasState, Assign, Without;
      LookupAssigned(versioned, "confirmedAt", value, name);
      LookupWithout(versioned, "confirmedAt", name);
    }
  }

  lemma AckIsLast(fields: seq<Field>, acknowledged: Json)
    requires IdOf(fields).Some?
    ensures AckOf(Collect(acknowledged, map[]), fields) == LastWith(Objects(acknowledged), IdOf(fields).value)
  {
    CollectFindsLast(acknowledged, map[], IdOf(fields).value);
  }

  /** An object with a state is rebased as it stands. */
  lemma StatedIsRebased(fields: seq<Field>, acknowledged: Json)
    requires HasState(fields)
    ensures RebasedOnto(fields, RebasedFields(Collect(acknowledged, map[]), fields), acknowledged)
  {
    var versions := Collect(acknowledged, map[]);
    if IsVersioned(fields) {
      AckIsLast(fields, acknowledged);
      FieldsAreRebased(versions, fields, "confirmedAt");
      FieldsAreRebased(versions, fields, "version");
      forall name
        ensures var ack := AckOf(versions, fields);
          var confirms := HasState(fields) && ack.Some? && Content(fields) == Content(ack.value);
          name != "version" && !(name == "confirmedAt" && confirms) ==>
            Lookup(RebasedFields(versions, fields), name) == Lookup(fields, name)
      {
        FieldsAreRebased(versions, fields, name);
      }
    }
    hide Content, RebasedFields, Objects, LastWith, Collect;
  }

  /** Any other has its members rebased first. */
  lemma UnstatedIsRebased(fields: seq<Field>, acknowledged: Json)
    requires !HasState(fields)
    ensures var versions := Collect(acknowledged, map[]);
      RebasedOnto(fields, RebasedFields(versions, RebasedMembers(versions, fields)), acknowledged)
  {
    var versions := Collect(acknowledged, map[]);
    var members := RebasedMembers(versions, fields);
    LookupRebased(versions, fields, "id");
    LookupRebased(versions, fields, "state");
    LookupRebased(versions, fields, "version");
    assert IdOf(members) == IdOf(fields) && !HasState(members) && IsVersioned(members) == IsVersioned(fields);
    if IsVersioned(fields) {
      AckIsLast(members, acknowledged);
    }
    forall name: string
      ensures Lookup(RebasedFields(versions, members), name) ==
        if name == "version" && IsVersioned(fields) then Some(VersionOf(AckOf(versions, members)))
        else MemberRebased(fields, name, acknowledged)
    {
      LookupRebased(versions, fields, name);
      FieldsAreRebased(versions, members, name);
    }
    hide Content, RebasedFields, RebasedMembers, Objects, LastWith, Collect;
  }

  lemma {:induction false} RebasedItemAt(versions: Versions, items: seq<Json>, n: nat)
    requires n < |items|
    ensures |RebasedItems(versions, items)| == |items| && RebasedItems(versions, items)[n] == Rebased(versions, items[n])
    decreases items
  {
    if n > 0 {
      RebasedItemAt(versions, items[1..], n - 1);
    } else if |items| > 1 {
      RebasedItemAt(versions, items[1..], 0);
    }
  }

  lemma {:induction false} RebasedMemberAt(versions: Versions, fields: seq<Field>, n: nat)
    requires n < |fields|
    ensures |RebasedMembers(versions, fields)| == |fields|
    ensures RebasedMembers(versions, fields)[n] == Field(fields[n].name, Rebased(versions, fields[n].value))
    decreases fields
  {
    if n > 0 {
      RebasedMemberAt(versions, fields[1..], n - 1);
    } else if |fields| > 1 {
      RebasedMemberAt(versions, fields[1..], 0);
    }
  }

  /** Assigning a member that is there leaves every other one in its place. */
  lemma {:induction false} AssignedAt(fields: seq<Field>, name: string, value: Json, n: nat)
    requires n < |fields| && Lookup(fields, name).Some?
    ensures |Assign(fields, name, value)| == |fields|
    ensures Assign(fields, name, value)[n] == fields[n] || Lookup(fields, name) == Some(fields[n].value)
    decreases |fields|
  {
    if fields[0].name != name {
      if n > 0 {
        AssignedAt(fields[1..], name, value, n - 1);
      } else {
        AssignedAt(fields[1..], name, value, 0);
      }
    }
  }

  /** An object without a state has its members rebased in place, but for its own version. */
  lemma MemberStays(versions: Versions, fields: seq<Field>, n: nat)
    requires !HasState(fields) && n < |fields|
    ensures |RebasedFields(versions, fields)| == |fields|
    ensures RebasedFields(versions, fields)[n] == fields[n] || fields[n].value.Num?
  {
    if IsVersioned(fields) {
      AssignedAt(fields, "version", VersionOf(AckOf(versions, fields)), n);
    }
  }

  /** Wherever a path leads in the draft, it leads in the rebased draft to that object, rebased. */
  lemma {:induction false} ObjectsAreRebased(desired: Json, acknowledged: Json, path: seq<nat>)
    requires ObjectAt(desired, path).Some?
    ensures var r := ObjectAt(RebaseVersions(desired, acknowledged), path);
      r.Some? && RebasedOnto(ObjectAt(desired, path).value, r.value, acknowledged)
    decreases |path|
  {
    hide RebasedOnto, RebasedFields, Collect, Objects;
    var versions := Collect(acknowledged, map[]);
    match desired
    case Arr(items) =>
      RebasedItemAt(versions, items, path[0]);
      ObjectsAreRebased(items[path[0]], acknowledged, path[1..]);
    case Obj(fields) =>
      if HasState(fields) {
        StatedIsRebased(fields, acknowledged);
      } else {
        UnstatedIsRebased(fields, acknowledged);
        if path != [] {
          PathGoesOn(fields, acknowledged, path[0]);
          ObjectsAreRebased(fields[path[0]].value, acknowledged, path[1..]);
        }
      }
  }

  /** Below an object without a state, a member that is no number is where it was, rebased. */
  lemma PathGoesOn(fields: seq<Field>, acknowledged: Json, n: nat)
    requires !HasState(fields) && n < |fields| && !fields[n].value.Num?
    ensures var versions := Collect(acknowledged, map[]);
      var r := RebasedFields(versions, RebasedMembers(versions, fields));
      && !HasState(r) && n < |r| && r[n].value == RebaseVersions(fields[n].value, acknowledged)
  {
    var versions := Collect(acknowledged, map[]);
    var members := RebasedMembers(versions, fields);
    RebasedMemberAt(versions, fields, n);
    LookupRebased(versions, fields, "state");
    RebasedContent(versions, members);
    hide Collect;
    assert !members[n].value.Num?;
    MemberStays(versions, members, n);
  }
}
