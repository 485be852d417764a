/** `YOLO.detect_control_models` of model.py: for each control tag of the
    labeling config, the first registered control-model class that matches
    it and builds an instance with a non-empty label map.

    The class hooks `is_control_matched` and `create`, and the label map
    they build, belong to the control_models package and are parameters
    here (a Registry). */
module ControlSelection {
  import opened Wrappers

  datatype ModelClass =
    | ChoicesModel
    | RectangleLabelsModel
    | RectangleLabelsObbModel
    | PolygonLabelsModel
    | KeypointLabelsModel
    | VideoRectangleModel

  /** The registration order, which is the order classes are tried in. */
  const AvailableModelClasses: seq<ModelClass> :=
    [ChoicesModel, RectangleLabelsModel, RectangleLabelsObbModel,
     PolygonLabelsModel, KeypointLabelsModel, VideoRectangleModel]

  /** A control tag of the labeling config; `toName` lists the object tags it
      is attached to. */
  datatype Control = Control(tag: string, name: string, toName: seq<string>)

  /** An instance a class builds for a control. */
  datatype ControlModel = ControlModel(modelClass: ModelClass, fromName: string, labelMap: map<string, string>)

  /** `create` yields None where the source gets a falsy instance. */
  datatype Registry = Registry(isControlMatched: (ModelClass, Control) -> bool,
                               create: (ModelClass, Control) -> Option<ControlModel>)

  datatype DetectError = NoSuitableControlTags

  /** Class c is the one taken for ctrl if it is reached: it matches, builds
      an instance, and the instance's label map is not empty. */
  predicate Accepts(reg: Registry, c: ModelClass, ctrl: Control) {
    && reg.isControlMatched(c, ctrl)
    && reg.create(c, ctrl).Some?
    && |reg.create(c, ctrl).value.labelMap| > 0
  }

  /** The instance of the first accepting class, trying `classes` in order. */
  function FirstAccepting(reg: Registry, classes: seq<ModelClass>, ctrl: Control): (r: Option<ControlModel>)
    ensures r.Some? <==> exists k :: 0 <= k < |classes| && Accepts(reg, classes[k], ctrl)
    ensures r.Some? ==>
      exists k :: 0 <= k < |classes|
        && Accepts(reg, classes[k], ctrl)
        && r == reg.create(classes[k], ctrl)
        && forall q :: 0 <= q < k ==> !Accepts(reg, classes[q], ctrl)
  {
    if |classes| == 0 then None
    else if Accepts(reg, classes[0], ctrl) then reg.create(classes[0], ctrl)
    else
      var r := FirstAccepting(reg, classes[1..], ctrl);
      assert forall k :: 0 < k < |classes| ==> classes[k] == classes[1..][k - 1];
      r
  }

  /** A control yields an instance: it has a toName and some class accepts it. */
  predicate Usable(reg: Registry, ctrl: Control) {
    |ctrl.toName| > 0 && FirstAccepting(reg, AvailableModelClasses, ctrl).Some?
  }

  /** The instances collected for `controls`, in control order. */
  function Selected(reg: Registry, controls: seq<Control>): seq<ControlModel> {
    if |controls| == 0 then []
    else
      var last := controls[|controls| - 1];
      Selected(reg, controls[..|controls| - 1])
        + (if Usable(reg, last) then [FirstAccepting(reg, AvailableModelClasses, last).value] else [])
  }

  /** The positions of the usable controls, in increasing order. */
  function SelectedIndices(reg: Registry, controls: seq<Control>): seq<nat> {
    if |controls| == 0 then []
    else
      var n := |controls| - 1;
      SelectedIndices(reg, controls[..n]) + (if Usable(reg, controls[n]) then [n] else [])
  }

  /** `detect_control_models`, as the source's two loops: controls without a
      toName are skipped, classes are tried in order, a class whose `create`
      gives nothing or an empty label map is passed over, and the first
      instance kept ends the inner loop. An empty outcome raises. */
  method DetectControlModels(reg: Registry, controls: seq<Control>) returns (r: Result<seq<ControlModel>, DetectError>)
    ensures r.Failure? <==> forall k :: 0 <= k < |controls| ==> !Usable(reg, controls[k])
    ensures r.Success? ==> r.value == Selected(reg, controls) && |r.value| > 0
  {
    var models: seq<ControlModel> := [];
    var i := 0;
    while i < |controls|
      invariant 0 <= i <= |controls|
      invariant models == Selected(reg, controls[..i])
    {
      var control := controls[i];
      assert controls[..i + 1][..i] == controls[..i];
      if |control.toName| == 0 {
        i := i + 1;
        continue;
      }
      var c := 0;
      var found: Option<ControlModel> := None;
      while c < |AvailableModelClasses| && found.None?
        invariant 0 <= c <= |AvailableModelClasses|
        invariant found.None? ==> forall q :: 0 <= q < c ==> !Accepts(reg, AvailableModelClasses[q], control)
        invariant found.Some? ==> found == FirstAccepting(reg, AvailableModelClasses, control)
      {
        var modelClass := AvailableModelClasses[c];
        if reg.isControlMatched(modelClass, control) {
          var instance := reg.create(modelClass, control);
          if instance.Some? && |instance.value.labelMap| > 0 {
            found := instance;
            FirstAcceptingAt(reg, AvailableModelClasses, control, c);
          }
        }
        c := c + 1;
      }
      if found.Some? {
        models := models + [found.value];
      } else {
        assert !Usable(reg, control);
      }
      i := i + 1;
    }
    assert controls[..i] == controls;
    SelectedEmpty(reg, controls);
    if |models| == 0 {
      return Failure(NoSuitableControlTags);
    }
    r := Success(models);
  }

  /** The first accepting class decides. */
  lemma FirstAcceptingAt(reg: Registry, classes: seq<ModelClass>, ctrl: Control, c: nat)
    requires c < |classes| && Accepts(reg, classes[c], ctrl)
    requires forall q :: 0 <= q < c ==> !Accepts(reg, classes[q], ctrl)
    ensures FirstAccepting(reg, classes, ctrl) == reg.create(classes[c], ctrl)
  {
    var r := FirstAccepting(reg, classes, ctrl);
    var k :| 0 <= k < |classes| && Accepts(reg, classes[k], ctrl) && r == reg.create(classes[k], ctrl)
      && forall q :: 0 <= q < k ==> !Accepts(reg, classes[q], ctrl);
    assert k == c;
  }

  /** Nothing is selected exactly when no control is usable. */
  lemma {:induction false} SelectedEmpty(reg: Registry, controls: seq<Control>)
    ensures Selected(reg, controls) == [] <==> forall k :: 0 <= k < |controls| ==> !Usable(reg, controls[k])
  {
    if |controls| > 0 {
      var n := |controls| - 1;
      SelectedEmpty(reg, controls[..n]);
      assert forall k :: 0 <= k < n ==> controls[..n][k] == controls[k];
    }
  }

  /** One instance per usable control, in control order: position k holds
      the first accepting instance for control SelectedIndices[k]. */
  lemma {:induction false} SelectedAtIndices(reg: Registry, controls: seq<Control>)
    ensures |Selected(reg, controls)| == |SelectedIndices(reg, controls)| <= |controls|
    ensures forall k :: 0 <= k < |SelectedIndices(reg, controls)| ==>
      && SelectedIndices(reg, controls)[k] < |controls|
      && Usable(reg, controls[SelectedIndices(reg, controls)[k]])
      && Selected(reg, controls)[k] == FirstAccepting(reg, AvailableModelClasses, controls[SelectedIndices(reg, controls)[k]]).value
  {
    if |controls| > 0 {
      var n := |controls| - 1;
      var prefix := controls[..n];
      SelectedAtIndices(reg, prefix);
      assert forall k :: 0 <= k < n ==> prefix[k] == controls[k];
    }
  }

  /** The indices increase, so control order is kept and no control yields
      two instances; a control is among them exactly when it is usable, so
      controls without a toName never are. */
  lemma {:induction false} SelectedIndicesOrdered(reg: Registry, controls: seq<Control>)
    ensures forall k :: 0 <= k < |SelectedIndices(reg, controls)| ==> SelectedIndices(reg, controls)[k] < |controls|
    ensures forall k, q :: 0 <= k < q < |SelectedIndices(reg, controls)| ==>
      SelectedIndices(reg, controls)[k] < SelectedIndices(reg, controls)[q]
    ensures forall i :: 0 <= i < |controls| ==> (Usable(reg, controls[i]) <==> i in SelectedIndices(reg, controls))
    ensures forall i :: 0 <= i < |controls| && |controls[i].toName| == 0 ==> i !in SelectedIndices(reg, controls)
  {
    if |controls| > 0 {
      var n := |controls| - 1;
      var prefix := controls[..n];
      SelectedIndicesOrdered(reg, prefix);
      assert forall k :: 0 <= k < n ==> prefix[k] == controls[k];
    }
  }
}
