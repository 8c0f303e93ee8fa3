/**
 * Visibility-group bookkeeping of the applet script (`mvt_applet/geogebra_javascript.js`):
 * every group keeps its temporary and its permanent members, a rebuild forgets the temporary
 * ones, and each group's checkbox handler shows or hides all members of its group.
 */
module AppletGroups {
  import opened Host

  /** One entry of `labelGroups`; colour, layer and title are cosmetic and left out. */
  class LabelGroup {
    var temporaryMembers: seq<Label>
    var permanentMembers: seq<Label>

    constructor ()
      ensures temporaryMembers == [] && permanentMembers == []
    {
      temporaryMembers := [];
      permanentMembers := [];
    }
  }

  /** The `updateHandler` closure made for one group: it captures the group and its checkbox. */
  datatype CheckboxHandler = CheckboxHandler(group: LabelGroup, checkbox: Label)

  /** `setVisible(member, visible)` for every member, in order. */
  function VisibilityCalls(members: seq<Label>, visible: bool): seq<HostCall>
  {
    if members == [] then []
    else VisibilityCalls(members[..|members| - 1], visible) + [VisibilitySet(members[|members| - 1], visible)]
  }

  /** The k-th call of `VisibilityCalls` sets the k-th member, and there is one call per member. */
  lemma {:induction false} VisibilityCallsAt(members: seq<Label>, visible: bool)
    ensures |VisibilityCalls(members, visible)| == |members|
    ensures forall k :: 0 <= k < |members| ==> VisibilityCalls(members, visible)[k] == VisibilitySet(members[k], visible)
  {
    if members != [] {
      VisibilityCallsAt(members[..|members| - 1], visible);
    }
  }

  /** Setting one more member appends one call. */
  lemma VisibilityStep(members: seq<Label>, i: nat, visible: bool)
    requires i < |members|
    ensures VisibilityCalls(members[..i + 1], visible) == VisibilityCalls(members[..i], visible) + [VisibilitySet(members[i], visible)]
  {
    assert members[..i + 1][..i] == members[..i];
  }

  /** The calls of one handler run while its checkbox holds `value` (1 means ticked). */
  function HandlerCalls(h: CheckboxHandler, value: Label -> int): seq<HostCall>
    reads h.group
  {
    var visible := value(h.checkbox) == 1;
    VisibilityCalls(h.group.temporaryMembers, visible) + VisibilityCalls(h.group.permanentMembers, visible)
  }

  /** The calls of running the handlers in order. */
  function AllHandlerCalls(handlers: seq<CheckboxHandler>, value: Label -> int): seq<HostCall>
    reads set h | h in handlers :: h.group
  {
    if handlers == [] then []
    else AllHandlerCalls(handlers[..|handlers| - 1], value) + HandlerCalls(handlers[|handlers| - 1], value)
  }

  /** The groups of the scene and the handlers made for their checkboxes. */
  class GroupControls {
    const api: Api
    /** The values of `labelGroups`, in key order. */
    const groups: seq<LabelGroup>
    var checkboxUpdateHandlers: seq<CheckboxHandler>

    constructor (api: Api, groups: seq<LabelGroup>)
      ensures this.api == api && this.groups == groups && checkboxUpdateHandlers == []
    {
      this.api := api;
      this.groups := groups;
      checkboxUpdateHandlers := [];
    }

    /** `registerGroupMember(label, group, permanent)`: append to exactly one member list. */
    method RegisterGroupMember(memberLabel: Label, group: LabelGroup, permanent: bool)
      modifies group
      ensures permanent ==> group.permanentMembers == old(group.permanentMembers) + [memberLabel]
                            && group.temporaryMembers == old(group.temporaryMembers)
      ensures !permanent ==> group.temporaryMembers == old(group.temporaryMembers) + [memberLabel]
                             && group.permanentMembers == old(group.permanentMembers)
    {
      if permanent {
        group.permanentMembers := group.permanentMembers + [memberLabel];
      } else {
        group.temporaryMembers := group.temporaryMembers + [memberLabel];
      }
    }

    /** `clearAllGroupMembers`: every group forgets its temporary members and keeps its permanent ones. */
    method ClearAllGroupMembers()
      modifies set g | g in groups
      ensures forall g :: g in groups ==> g.temporaryMembers == [] && g.permanentMembers == old(g.permanentMembers)
    {
      var groupKeyIndex := 0;
      while groupKeyIndex < |groups|
        invariant 0 <= groupKeyIndex <= |groups|
        invariant forall j :: 0 <= j < groupKeyIndex ==> groups[j].temporaryMembers == []
        invariant forall g :: g in groups ==> g.permanentMembers == old(g.permanentMembers)
      {
        groups[groupKeyIndex].temporaryMembers := [];
        groupKeyIndex := groupKeyIndex + 1;
      }
    }

    /**
     * The handler part of `setupGroupCheckboxes`: one handler per group, in key order, each
     * capturing its group and the label of the checkbox created for it.
     */
    method SetupGroupCheckboxes(checkboxLabels: seq<Label>)
      requires |checkboxLabels| == |groups|
      modifies this
      ensures |checkboxUpdateHandlers| == |groups|
      ensures forall k :: 0 <= k < |groups| ==>
                checkboxUpdateHandlers[k] == CheckboxHandler(groups[k], checkboxLabels[k])
    {
      checkboxUpdateHandlers := [];
      var groupKeyIndex := 0;
      while groupKeyIndex < |groups|
        invariant 0 <= groupKeyIndex <= |groups|
        invariant |checkboxUpdateHandlers| == groupKeyIndex
        invariant forall k :: 0 <= k < groupKeyIndex ==>
                    checkboxUpdateHandlers[k] == CheckboxHandler(groups[k], checkboxLabels[k])
      {
        checkboxUpdateHandlers := checkboxUpdateHandlers + [CheckboxHandler(groups[groupKeyIndex], checkboxLabels[groupKeyIndex])];
        groupKeyIndex := groupKeyIndex + 1;
      }
    }

    /**
     * One `updateHandler` run: read the checkbox, then set that visibility on every temporary
     * member and then on every permanent member.
     */
    method UpdateHandler(h: CheckboxHandler, checkboxValue: Label -> int)
      modifies api
      ensures api.log == old(api.log) + HandlerCalls(h, checkboxValue)
    {
      var visibility := checkboxValue(h.checkbox) == 1;
      SetMembersVisible(h.group.temporaryMembers, visibility);
      SetMembersVisible(h.group.permanentMembers, visibility);
    }

    /** Either `for` loop of `updateHandler`: `setVisible(member, visibility)` for every member, in order. */
    method SetMembersVisible(members: seq<Label>, visibility: bool)
      modifies api
      ensures api.log == old(api.log) + VisibilityCalls(members, visibility)
    {
      var i := 0;
      while i < |members|
        invariant 0 <= i <= |members|
        invariant api.log == old(api.log) + VisibilityCalls(members[..i], visibility)
      {
        VisibilityStep(members, i, visibility);
        api.SetVisible(members[i], visibility);
        i := i + 1;
      }
      assert members[..i] == members;
    }

    /** `applyAllGroupCheckboxes`: run every handler, in the order they were made. */
    method ApplyAllGroupCheckboxes(checkboxValue: Label -> int)
      modifies api
      ensures api.log == old(api.log) + old(AllHandlerCalls(checkboxUpdateHandlers, checkboxValue))
    {
      var i := 0;
      while i < |checkboxUpdateHandlers|
        invariant 0 <= i <= |checkboxUpdateHandlers|
        invariant api.log == old(api.log) + old(AllHandlerCalls(checkboxUpdateHandlers[..i], checkboxValue))
      {
        assert checkboxUpdateHandlers[..i + 1][..i] == checkboxUpdateHandlers[..i];
        UpdateHandler(checkboxUpdateHandlers[i], checkboxValue);
        i := i + 1;
      }
      assert checkboxUpdateHandlers[..i] == checkboxUpdateHandlers;
    }
  }

  /** Running a single handler makes exactly that handler's calls. */
  lemma OneHandler(h: CheckboxHandler, value: Label -> int)
    ensures AllHandlerCalls([h], value) == HandlerCalls(h, value)
  {
    assert [h][..0] == [];
  }

  /** Running a single handler sets the checkbox's visibility on its temporary, then its permanent members. */
  lemma OneHandlerCalls(h: CheckboxHandler, value: Label -> int, visible: bool)
    requires visible <==> value(h.checkbox) == 1
    ensures AllHandlerCalls([h], value)
            == VisibilityCalls(h.group.temporaryMembers, visible) + VisibilityCalls(h.group.permanentMembers, visible)
  {
    OneHandler(h, value);
  }

  lemma VisibilityOne(x: Label, visible: bool)
    ensures VisibilityCalls([x], visible) == [VisibilitySet(x, visible)]
  {
    assert [x][..0] == [];
  }

  lemma VisibilityTwo(x: Label, y: Label, visible: bool)
    ensures VisibilityCalls([x, y], visible) == [VisibilitySet(x, visible), VisibilitySet(y, visible)]
  {
    assert [x, y][..1] == [x];
    VisibilityOne(x, visible);
  }

  /** With its checkbox cleared, a group hides its temporary and its permanent members, in order. */
  method UntickHidesAll(t1: Label, t2: Label, p: Label, checkbox: Label) returns (hidden: seq<HostCall>)
    ensures hidden == [VisibilitySet(t1, false), VisibilitySet(t2, false), VisibilitySet(p, false)]
  {
    var api := new Api((log: seq<HostCall>, command: string) => NotAString);
    var g := new LabelGroup();
    var controls := new GroupControls(api, [g]);
    controls.SetupGroupCheckboxes([checkbox]);
    controls.RegisterGroupMember(t1, g, false);
    controls.RegisterGroupMember(t2, g, false);
    controls.RegisterGroupMember(p, g, true);
    var h := CheckboxHandler(g, checkbox);
    assert controls.checkboxUpdateHandlers == [h];
    assert g.temporaryMembers == [t1, t2] && g.permanentMembers == [p];
    var unticked: Label -> int := x => 0;
    OneHandlerCalls(h, unticked, false);
    VisibilityTwo(t1, t2, false);
    VisibilityOne(p, false);
    controls.ApplyAllGroupCheckboxes(unticked);
    hidden := api.log;
  }

  /**
   * After a rebuild clears the temporary members and registers a new one, ticking the checkbox
   * shows only the new temporary member and the permanent one: the old member is not touched.
   */
  method ClearThenTick(t1: Label, p: Label, t3: Label, checkbox: Label) returns (shown: seq<HostCall>)
    ensures shown == [VisibilitySet(t3, true), VisibilitySet(p, true)]
  {
    var api := new Api((log: seq<HostCall>, command: string) => NotAString);
    var g := new LabelGroup();
    var controls := new GroupControls(api, [g]);
    controls.SetupGroupCheckboxes([checkbox]);
    controls.RegisterGroupMember(t1, g, false);
    controls.RegisterGroupMember(p, g, true);
    assert g in controls.groups;
    controls.ClearAllGroupMembers();
    controls.RegisterGroupMember(t3, g, false);
    var h := CheckboxHandler(g, checkbox);
    assert controls.checkboxUpdateHandlers == [h];
    assert g.temporaryMembers == [t3] && g.permanentMembers == [p];
    var ticked: Label -> int := x => 1;
    OneHandlerCalls(h, ticked, true);
    VisibilityOne(t3, true);
    VisibilityOne(p, true);
    controls.ApplyAllGroupCheckboxes(ticked);
    shown := api.log;
  }
}
