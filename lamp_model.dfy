/**
 * The JSON wire model of the ESP32 lamp (`LampModel`): the four-member
 * object `{"device", "event", "arg0", "arg1"}` exchanged with the companion
 * over TCP, built from fields for sending and read back into fields on
 * receipt.
 *
 * cJSON itself is not part of this model. Its tree is the `Json` datatype;
 * its printer and parser are the two functions of a `CJson` value passed in
 * by the caller, and `Inverse` says the parser reads back what the printer
 * wrote.
 */
module LampWire {
  import opened Wrappers
  import opened Msg

  const Name := "lamp-esp"
  const ReqUpdate := "req-update"
  const UserClick := "user-click"
  const Update := "update"

  const DeviceKey := "device"
  const EventKey := "event"
  const Arg0Key := "arg0"
  const Arg1Key := "arg1"

  /** A cJSON tree; numbers are integral (see README, "Left out"). */
  datatype Json =
    | JNull
    | JBool(b: bool)
    | JNumber(n: int)
    | JString(s: string)
    | JArray(items: seq<Json>)
    | JObject(members: seq<Member>)

  /** One member of an object, in insertion order. */
  datatype Member = Member(key: string, value: Json)

  /** `cJSON_PrintUnformatted` and `cJSON_Parse` (the latter answering NULL on malformed text). */
  datatype CJson = CJson(printUnformatted: Json -> string, parse: string -> Option<Json>)

  /** A member value cJSON prints and reads back exactly: a NUL-free string or an `int`-range number. */
  predicate WireValue(v: Json)
  {
    (v.JString? && '\0' !in v.s) || (v.JNumber? && -0x8000_0000 <= v.n < 0x8000_0000)
  }

  /**
   * The trees this link carries: objects with NUL-free keys whose members
   * are wire values. A cJSON string ends at its first NUL, and a number of
   * 16 or more digits loses digits when printed with `%1.15g`, so no
   * parser recovers every tree.
   */
  predicate WireTree(j: Json)
  {
    j.JObject? && forall m | m in j.members :: '\0' !in m.key && WireValue(m.value)
  }

  /** The parser recovers every wire tree the printer writes. */
  ghost predicate Inverse(c: CJson)
  {
    forall j: Json | WireTree(j) :: c.parse(c.printUnformatted(j)) == Some(j)
  }

  /** The first member of `members` whose key is `key` (the lookup of `cJSON_GetObjectItem`). */
  function Lookup(members: seq<Member>, key: string): (r: Option<Json>)
    ensures r.Some? <==> exists i :: 0 <= i < |members| && members[i].key == key
    ensures r.Some? ==> exists i :: 0 <= i < |members| && members[i] == Member(key, r.value)
                                    && forall k :: 0 <= k < i ==> members[k].key != key
  {
    if |members| == 0 then None
    else if members[0].key == key then Some(members[0].value)
    else
      var r := Lookup(members[1..], key);
      assert forall i :: 0 < i < |members| ==> members[i] == members[1..][i - 1];
      r
  }

  /** `cJSON_GetObjectItem(j, key)`: NULL unless `j` is an object holding `key`. */
  function Item(j: Json, key: string): (r: Option<Json>)
    ensures r.Some? <==> j.JObject? && exists i :: 0 <= i < |j.members| && j.members[i].key == key
  {
    if j.JObject? then Lookup(j.members, key) else None
  }

  /** `item->valueint`: a number saturated to the `int` range, 1 for `true`, 0 otherwise. */
  function ValueInt(item: Json): (r: int32)
    ensures item.JNumber? && -0x8000_0000 <= item.n < 0x8000_0000 ==> r == item.n
    ensures !item.JNumber? && item != JBool(true) ==> r == 0
  {
    match item
    case JNumber(n) =>
      if n >= 0x7FFF_FFFF then 0x7FFF_FFFF else if n <= -0x8000_0000 then -0x8000_0000 else n
    case JBool(b) => if b then 1 else 0
    case _ => 0
  }

  /** `item ? item->valuestring : NULL`: only string items carry a string. */
  function ValueString(item: Option<Json>): (r: Option<string>)
    ensures r.Some? <==> item.Some? && item.value.JString?
  {
    if item.Some? && item.value.JString? then Some(item.value.s) else None
  }

  /** The four fields a lamp message carries. */
  datatype Fields = Fields(device: string, event: string, arg0: int32, arg1: int32)

  /** The tree `build(device, event, arg0, arg1)` assembles, members in insertion order. */
  function BuildTree(device: string, event: string, arg0: int32, arg1: int32): (r: Json)
    ensures r.JObject? && |r.members| == 4
    ensures forall i, j :: 0 <= i < j < |r.members| ==> r.members[i].key != r.members[j].key
  {
    assert |DeviceKey| != |EventKey| && |DeviceKey| != |Arg0Key| && |EventKey| != |Arg0Key|;
    assert Arg0Key[3] != Arg1Key[3];
    JObject([Member(DeviceKey, JString(device)), Member(EventKey, JString(event)),
             Member(Arg0Key, JNumber(arg0)), Member(Arg1Key, JNumber(arg1))])
  }

  /**
   * What the corrected `parse` extracts from a parsed tree: the four fields,
   * or nothing when a member is missing or `device`/`event` is not a string.
   */
  function ReadMembers(t: Json): (r: Option<Fields>)
    ensures r.Some? <==> ValueString(Item(t, DeviceKey)).Some? && ValueString(Item(t, EventKey)).Some?
                         && Item(t, Arg0Key).Some? && Item(t, Arg1Key).Some?
  {
    var d := ValueString(Item(t, DeviceKey));
    var e := ValueString(Item(t, EventKey));
    var a0 := Item(t, Arg0Key);
    var a1 := Item(t, Arg1Key);
    if d.Some? && e.Some? && a0.Some? && a1.Some? then
      Some(Fields(d.value, e.value, ValueInt(a0.value), ValueInt(a1.value)))
    else None
  }

  /** The corrected `parse` of a whole text: malformed JSON and incomplete messages give nothing. */
  function ParseText(c: CJson, text: string): (r: Option<Fields>)
    ensures r.Some? <==> c.parse(text).Some? && ReadMembersAsWritten(c.parse(text).value).Read?
                         && ReadMembersAsWritten(c.parse(text).value).device.Some?
                         && ReadMembersAsWritten(c.parse(text).value).event.Some?
    ensures r.Some? ==> ReadMembersAsWritten(c.parse(text).value)
                        == Read(Some(r.value.device), Some(r.value.event), r.value.arg0, r.value.arg1)
  {
    match c.parse(text)
    case None => None
    case Some(t) =>
      CorrectedReadAgrees(t);
      ReadMembers(t)
  }

  /** What `parse` reads at LampModel.cpp lines 92-95, as written. */
  datatype AsWrittenRead =
    | Read(device: Option<string>, event: Option<string>, arg0: int32, arg1: int32)
    | NullDereference

  /**
   * `parse` as written: `_device`/`_event` may be NULL, but `->valueint` is
   * taken of the `arg0` and `arg1` lookups unchecked.
   */
  function ReadMembersAsWritten(t: Json): (r: AsWrittenRead)
    ensures r.NullDereference? <==> Item(t, Arg0Key).None? || Item(t, Arg1Key).None?
    ensures r.Read? ==> r.device == ValueString(Item(t, DeviceKey)) && r.event == ValueString(Item(t, EventKey))
    ensures r.Read? ==> r.arg0 == ValueInt(Item(t, Arg0Key).value) && r.arg1 == ValueInt(Item(t, Arg1Key).value)
  {
    var a0 := Item(t, Arg0Key);
    var a1 := Item(t, Arg1Key);
    if a0.None? || a1.None? then NullDereference
    else Read(ValueString(Item(t, DeviceKey)), ValueString(Item(t, EventKey)),
              ValueInt(a0.value), ValueInt(a1.value))
  }

  /** Each of the four keys finds the member `build` added under it. */
  lemma BuiltItems(device: string, event: string, arg0: int32, arg1: int32)
    ensures Item(BuildTree(device, event, arg0, arg1), DeviceKey) == Some(JString(device))
    ensures Item(BuildTree(device, event, arg0, arg1), EventKey) == Some(JString(event))
    ensures Item(BuildTree(device, event, arg0, arg1), Arg0Key) == Some(JNumber(arg0))
    ensures Item(BuildTree(device, event, arg0, arg1), Arg1Key) == Some(JNumber(arg1))
  {
    var ms := BuildTree(device, event, arg0, arg1).members;
    var m1, m2, m3 := ms[1..], ms[2..], ms[3..];
    assert m1[1..] == m2 && m2[1..] == m3;
    assert |DeviceKey| != |EventKey| && |DeviceKey| != |Arg0Key| && |EventKey| != |Arg0Key|;
    assert Arg0Key[3] != Arg1Key[3];
    assert Lookup(m3, Arg1Key) == Some(JNumber(arg1));
    assert Lookup(m2, Arg1Key) == Lookup(m3, Arg1Key);
    assert Lookup(m2, Arg0Key) == Some(JNumber(arg0));
    assert Lookup(m1, Arg0Key) == Lookup(m2, Arg0Key);
    assert Lookup(m1, Arg1Key) == Lookup(m2, Arg1Key);
    assert Lookup(m1, EventKey) == Some(JString(event));
  }

  /** The tree `build` writes reads back as the fields it was built from. */
  lemma BuildThenRead(device: string, event: string, arg0: int32, arg1: int32)
    ensures ReadMembers(BuildTree(device, event, arg0, arg1)) == Some(Fields(device, event, arg0, arg1))
  {
    BuiltItems(device, event, arg0, arg1);
  }

  /** Every message `build` makes from NUL-free strings is a wire tree. */
  lemma BuiltIsWireTree(device: string, event: string, arg0: int32, arg1: int32)
    requires '\0' !in device && '\0' !in event
    ensures WireTree(BuildTree(device, event, arg0, arg1))
  {
    assert '\0' !in DeviceKey && '\0' !in EventKey && '\0' !in Arg0Key && '\0' !in Arg1Key;
  }

  /** Sender and receiver agree: printing a built message and parsing it back gives its fields. */
  lemma WireRoundTrip(c: CJson, device: string, event: string, arg0: int32, arg1: int32)
    requires Inverse(c)
    requires '\0' !in device && '\0' !in event
    ensures ParseText(c, c.printUnformatted(BuildTree(device, event, arg0, arg1))) == Some(Fields(device, event, arg0, arg1))
  {
    var t := BuildTree(device, event, arg0, arg1);
    BuiltIsWireTree(device, event, arg0, arg1);
    assert c.parse(c.printUnformatted(t)) == Some(t);
    BuildThenRead(device, event, arg0, arg1);
  }

  /** The round trip as an implication, for callers that cannot assume `Inverse`. */
  lemma WireRoundTripIfInverse(c: CJson, device: string, event: string, arg0: int32, arg1: int32)
    requires '\0' !in device && '\0' !in event
    ensures Inverse(c) ==>
      ParseText(c, c.printUnformatted(BuildTree(device, event, arg0, arg1))) == Some(Fields(device, event, arg0, arg1))
  {
    if Inverse(c) {
      WireRoundTrip(c, device, event, arg0, arg1);
    }
  }

  /**
   * The corrected reading accepts only trees the written code reads without
   * faulting, and then reads the same fields; every tree the written code
   * faults on is rejected.
   */
  lemma CorrectedReadAgrees(t: Json)
    ensures ReadMembers(t).Some? ==>
      var f := ReadMembers(t).value;
      ReadMembersAsWritten(t) == Read(Some(f.device), Some(f.event), f.arg0, f.arg1)
    ensures ReadMembersAsWritten(t) == NullDereference ==> ReadMembers(t) == None
  {
  }

  /** A well-formed request without `arg0`/`arg1` makes the written `parse` dereference NULL. */
  lemma RequestWithoutArgsFaults()
    ensures ReadMembersAsWritten(JObject([Member(DeviceKey, JString(Name)), Member(EventKey, JString(ReqUpdate))]))
            == NullDereference
    ensures ReadMembers(JObject([Member(DeviceKey, JString(Name)), Member(EventKey, JString(ReqUpdate))])) == None
  {
  }

  /** What `_root` holds: NULL, a tree this object owns, or a pointer to a tree already freed. */
  datatype Root = NoRoot | Owns(tree: Json) | Dangling

  /** The outcome of the written `parse`: a return value, or a fault. */
  datatype ParseOutcome = Returned(ok: bool) | Faulted

  function OrEmpty(s: Option<string>): string
  {
    if s.Some? then s.value else ""
  }

  /**
   * One `LampModel` object. Operations that free `_root` require that it is
   * not dangling: freeing it twice is undefined behaviour in the source.
   */
  class LampModel {
    var root: Root
    var deviceItem: Option<Json>
    var eventItem: Option<Json>
    var arg0: int32
    var arg1: int32
    /** Trees and items allocated on behalf of this object that nothing will free. */
    ghost var leaked: nat

    /** Only `_root` is initialised; the other fields hold whatever was in memory. */
    constructor()
      ensures root == NoRoot && leaked == 0
    {
      root := NoRoot;
      leaked := 0;
    }

    /** `device()`: the device string, NULL if absent or not a string. */
    function Device(): (r: Option<string>)
      reads this
      ensures r.Some? <==> deviceItem.Some? && deviceItem.value.JString?
      ensures r.Some? ==> deviceItem == Some(JString(r.value))
    {
      ValueString(deviceItem)
    }

    /** `event()`. */
    function Event(): (r: Option<string>)
      reads this
      ensures r.Some? <==> eventItem.Some? && eventItem.value.JString?
      ensures r.Some? ==> eventItem == Some(JString(r.value))
    {
      ValueString(eventItem)
    }

    /** `~LampModel()`: frees the owned tree. */
    method Dispose()
      requires root != Dangling
      modifies this
      ensures root == NoRoot
      ensures deviceItem == old(deviceItem) && eventItem == old(eventItem)
      ensures arg0 == old(arg0) && arg1 == old(arg1) && leaked == old(leaked)
    {
      root := NoRoot;
    }

    /** `reset()`: frees the owned tree and forgets it. */
    method Reset()
      requires root != Dangling
      modifies this
      ensures root == NoRoot
      ensures deviceItem == old(deviceItem) && eventItem == old(eventItem)
      ensures arg0 == old(arg0) && arg1 == old(arg1) && leaked == old(leaked)
    {
      if root.Owns? {
        root := NoRoot;
      }
    }

    /**
     * `build(device, event, arg0, arg1)`. NULL strings become "". When the
     * object node cannot be allocated (`rootAllocated` false) `_root` is NULL,
     * the call answers false, and the two string items, never attached, leak.
     */
    method Build(device: Option<string>, event: Option<string>, a0: int32, a1: int32, rootAllocated: bool)
      returns (ok: bool)
      requires root != Dangling
      modifies this
      ensures ok == rootAllocated
      ensures deviceItem == Some(JString(OrEmpty(device))) && eventItem == Some(JString(OrEmpty(event)))
      ensures arg0 == a0 && arg1 == a1
      ensures root == if rootAllocated then Owns(BuildTree(OrEmpty(device), OrEmpty(event), a0, a1)) else NoRoot
      ensures leaked == old(leaked) + if rootAllocated then 0 else 2
    {
      var d := OrEmpty(device);
      var e := OrEmpty(event);
      deviceItem := Some(JString(d));
      eventItem := Some(JString(e));
      arg0 := a0;
      arg1 := a1;
      if rootAllocated {
        root := Owns(BuildTree(d, e, a0, a1));
      } else {
        root := NoRoot;
        leaked := leaked + 2;
      }
      ok := rootAllocated;
    }

    /**
     * `parse(str)`, corrected: the parsed tree becomes `_root` (so the
     * destructor frees it), a freed tree is forgotten, and a tree lacking one
     * of the four members is rejected instead of dereferenced.
     */
    method Parse(text: Option<string>, c: CJson) returns (ok: bool)
      requires root != Dangling
      modifies this
      ensures ok <==> text.Some? && ParseText(c, text.value).Some?
      ensures text.None? ==> root == old(root) && deviceItem == old(deviceItem) && eventItem == old(eventItem)
                             && arg0 == old(arg0) && arg1 == old(arg1)
      ensures text.Some? && !ok ==> root == NoRoot && deviceItem == None && eventItem == None
                                    && arg0 == old(arg0) && arg1 == old(arg1)
      ensures ok ==> root == Owns(c.parse(text.value).value)
                     && Some(Fields(OrEmpty(Device()), OrEmpty(Event()), arg0, arg1)) == ParseText(c, text.value)
                     && Device().Some? && Event().Some?
      ensures leaked == old(leaked)
    {
      if text.None? {
        return false;
      }
      // The old tree, and the two items that pointed into it, are gone.
      root := NoRoot;
      deviceItem := None;
      eventItem := None;
      var t := c.parse(text.value);
      if t.None? {
        return false;
      }
      var f := ReadMembers(t.value);
      if f.None? {
        return false;
      }
      root := Owns(t.value);
      deviceItem := Item(t.value, DeviceKey);
      eventItem := Item(t.value, EventKey);
      arg0 := ValueInt(Item(t.value, Arg0Key).value);
      arg1 := ValueInt(Item(t.value, Arg1Key).value);
      ok := true;
    }

    /**
     * `parse(str)` as written: the old tree is freed but `_root` keeps
     * pointing at it, and the parsed tree is never stored, so it leaks. A
     * second `parse` therefore frees the same tree again, which is a fault.
     */
    method ParseAsWritten(text: Option<string>, c: CJson) returns (r: ParseOutcome)
      modifies this
      ensures text.None? ==> r == Returned(false) && root == old(root) && leaked == old(leaked)
                             && deviceItem == old(deviceItem) && eventItem == old(eventItem)
                             && arg0 == old(arg0) && arg1 == old(arg1)
      ensures text.Some? && old(root).Dangling? ==> r == Faulted && root == old(root) && leaked == old(leaked)
      ensures text.Some? && !old(root).Dangling? ==> root == if old(root).Owns? then Dangling else NoRoot
      ensures text.Some? && !old(root).Dangling? && c.parse(text.value).None? ==>
        r == Returned(false) && leaked == old(leaked)
        && deviceItem == old(deviceItem) && eventItem == old(eventItem) && arg0 == old(arg0) && arg1 == old(arg1)
      ensures text.Some? && !old(root).Dangling? && c.parse(text.value).Some? ==>
        leaked == old(leaked) + 1 &&
        r == if ReadMembersAsWritten(c.parse(text.value).value).NullDereference? then Faulted else Returned(true)
      ensures r == Returned(true) ==>
        var t := c.parse(text.value).value;
        deviceItem == Item(t, DeviceKey) && eventItem == Item(t, EventKey)
        && arg0 == ReadMembersAsWritten(t).arg0 && arg1 == ReadMembersAsWritten(t).arg1
    {
      if text.None? {
        return Returned(false);
      }
      if root.Dangling? {
        return Faulted;
      }
      if root.Owns? {
        root := Dangling;
      }
      var t := c.parse(text.value);
      if t.None? {
        return Returned(false);
      }
      leaked := leaked + 1;
      var read := ReadMembersAsWritten(t.value);
      if read.NullDereference? {
        return Faulted;
      }
      deviceItem := Item(t.value, DeviceKey);
      eventItem := Item(t.value, EventKey);
      arg0 := read.arg0;
      arg1 := read.arg1;
      r := Returned(true);
    }

    /**
     * `stringnify()`: the unformatted text of `_root`, or NULL when there is
     * no tree or the printer cannot allocate (`printAllocated` false).
     */
    method Stringnify(c: CJson, printAllocated: bool) returns (s: Option<string>)
      requires root != Dangling
      ensures s.Some? <==> root.Owns? && printAllocated
      ensures s.Some? ==> s.value == c.printUnformatted(root.tree)
    {
      if root.Owns? && printAllocated {
        s := Some(c.printUnformatted(root.tree));
      } else {
        s := None;
      }
    }
  }

  /**
   * Each chunk the TCP worker receives gets a fresh `LampModel`; with the
   * written `parse`, a well-formed chunk leaves its tree allocated after the
   * destructor has run.
   */
  method ParsedChunkLeaks(c: CJson, text: string) returns (ghost leakedTrees: nat)
    requires c.parse(text).Some? && ReadMembersAsWritten(c.parse(text).value).Read?
    ensures leakedTrees == 1
  {
    var m := new LampModel();
    var r := m.ParseAsWritten(Some(text), c);
    assert r == Returned(true) && m.root == NoRoot;
    m.Dispose();
    leakedTrees := m.leaked;
  }

  /** With the corrected `parse`, the same chunk leaves nothing behind. */
  method ParsedChunkFreed(c: CJson, text: string) returns (ghost leakedTrees: nat)
    ensures leakedTrees == 0
  {
    var m := new LampModel();
    var ok := m.Parse(Some(text), c);
    m.Dispose();
    leakedTrees := m.leaked;
  }
}
