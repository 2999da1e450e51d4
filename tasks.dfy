/** The deprecated `tasks` namespace: a stateless adapter that rewrites task-module
    arguments into the shape the `dialog` namespace expects and forwards them.
    `dialog.open`, `dialog.resize` and `dialog.submit` are not part of this model;
    each adapter function returns the call it makes to them. */
module Tasks {
  import opened JsValues

  /** The three members of the `TaskModuleDimension` enum. */
  datatype Dimension = Large | Medium | Small

  /** The string values the enum gives its members. They are declared outside this
      module, so the model takes them as a parameter. */
  datatype DimensionNames = DimensionNames(large: string, medium: string, small: string) {

    function NameOf(d: Dimension): string {
      match d
      case Large => large
      case Medium => medium
      case Small => small
    }

    /** An enum gives its members distinct values. */
    predicate Distinct() {
      large != medium && medium != small && large != small
    }
  }

  /** The runtime value of an enum member. */
  function EnumValue(names: DimensionNames, d: Dimension): Value {
    Str(names.NameOf(d))
  }

  /** The property names of a dialog info object. */
  const DialogFields: set<string> := {"url", "card", "height", "width", "title", "fallbackUrl", "completionBotId"}

  /** The dialog info properties that are copied without change. */
  const CopiedFields: set<string> := {"url", "card", "title", "fallbackUrl", "completionBotId"}

  /** A size as the dialog namespace accepts it: falsy, a number, or an enum value. */
  predicate IsDialogSize(names: DimensionNames, v: Value) {
    || !Truthy(v)
    || IsNumber(v)
    || v == EnumValue(names, Large)
    || v == EnumValue(names, Medium)
    || v == EnumValue(names, Small)
  }

  /** An object of exactly the dialog info shape, with sizes the dialog namespace accepts. */
  predicate IsDialogInfo(names: DimensionNames, o: Object) {
    && o.Keys == DialogFields
    && IsDialogSize(names, o["height"])
    && IsDialogSize(names, o["width"])
  }

  /** `getDialogDimensionFromTaskModuleDimension`: a strict-equality chain against
      the Large and Medium values; everything else becomes Small. */
  function DialogDimension(names: DimensionNames, v: Value): (d: Dimension)
    ensures d == Large <==> v == EnumValue(names, Large)
    ensures d == Medium <==> v != EnumValue(names, Large) && v == EnumValue(names, Medium)
    ensures d == Small <==> v != EnumValue(names, Large) && v != EnumValue(names, Medium)
  {
    if v == EnumValue(names, Large) then Large
    else if v == EnumValue(names, Medium) then Medium
    else Small
  }

  /** The conditional that resolves one size property of the task info. */
  function ResolveSize(names: DimensionNames, v: Value): (r: Value)
    ensures IsNumber(v) ==> r == v
    ensures !Truthy(v) ==> r == v
    ensures Truthy(v) && !IsNumber(v) ==> r == EnumValue(names, DialogDimension(names, v))
    ensures IsDialogSize(names, r)
  {
    if Truthy(v) && !IsNumber(v) then EnumValue(names, DialogDimension(names, v)) else v
  }

  /** `getDialogInfoFromTaskInfo`: a fresh object with the seven dialog properties. */
  function GetDialogInfoFromTaskInfo(names: DimensionNames, taskInfo: Object): (dialogInfo: Object)
    ensures dialogInfo.Keys == DialogFields
    ensures forall f :: f in CopiedFields ==> dialogInfo[f] == Get(taskInfo, f)
    ensures dialogInfo["height"] == ResolveSize(names, Get(taskInfo, "height"))
    ensures dialogInfo["width"] == ResolveSize(names, Get(taskInfo, "width"))
    ensures IsDialogInfo(names, dialogInfo)
  {
    map[
      "url" := Get(taskInfo, "url"),
      "card" := Get(taskInfo, "card"),
      "height" := ResolveSize(names, Get(taskInfo, "height")),
      "width" := ResolveSize(names, Get(taskInfo, "width")),
      "title" := Get(taskInfo, "title"),
      "fallbackUrl" := Get(taskInfo, "fallbackUrl"),
      "completionBotId" := Get(taskInfo, "completionBotId")
    ]
  }

  /** A call the adapter makes into the dialog namespace, with its arguments in order.
      An omitted optional argument is `undefined`. */
  datatype DialogCall =
    | Open(dialogInfo: Object, submitHandler: Value)
    | Resize(dialogInfo: Object)
    | Submit(result: Value, appIds: Value)

  /** `startTask`: opens a dialog with the translated info and the caller's handler. */
  function StartTask(names: DimensionNames, taskInfo: Object, submitHandler: Value): (call: DialogCall)
    ensures call.Open? && call.submitHandler == submitHandler
    ensures call.dialogInfo == GetDialogInfoFromTaskInfo(names, taskInfo)
    ensures IsDialogInfo(names, call.dialogInfo)
  {
    Open(GetDialogInfoFromTaskInfo(names, taskInfo), submitHandler)
  }

  /** `updateTask`: resizes with the caller's object as it is, extra properties included. */
  function UpdateTask(taskInfo: Object): (call: DialogCall)
    ensures call.Resize? && call.dialogInfo == taskInfo
  {
    Resize(taskInfo)
  }

  /** `submitTask`: submits the result and app ids as given. */
  function SubmitTask(result: Value, appIds: Value): (call: DialogCall)
    ensures call.Submit? && call.result == result && call.appIds == appIds
  {
    Submit(result, appIds)
  }

  // ---------------------------------------------------------------------------
  // Properties of the translation

  /** Each enum value maps back to its own member. */
  lemma DimensionRoundTrip(names: DimensionNames, d: Dimension)
    requires names.Distinct()
    ensures DialogDimension(names, EnumValue(names, d)) == d
  {
  }

  /** Mapping an enum value the mapper produced gives the same member again. */
  lemma DialogDimensionIdempotent(names: DimensionNames, v: Value)
    requires names.Distinct()
    ensures DialogDimension(names, EnumValue(names, DialogDimension(names, v))) == DialogDimension(names, v)
  {
    DimensionRoundTrip(names, DialogDimension(names, v));
  }

  /** A size the dialog namespace already accepts is left as it is. */
  lemma ResolveSizeKeepsDialogSizes(names: DimensionNames, v: Value)
    requires IsDialogSize(names, v)
    ensures ResolveSize(names, v) == v
  {
  }

  /** An object that already has the dialog info shape is rebuilt unchanged. */
  lemma DialogInfoUnchanged(names: DimensionNames, o: Object)
    requires IsDialogInfo(names, o)
    ensures GetDialogInfoFromTaskInfo(names, o) == o
  {
    ResolveSizeKeepsDialogSizes(names, o["height"]);
    ResolveSizeKeepsDialogSizes(names, o["width"]);
  }

  /** Translating a second time changes nothing. */
  lemma GetDialogInfoIdempotent(names: DimensionNames, taskInfo: Object)
    ensures GetDialogInfoFromTaskInfo(names, GetDialogInfoFromTaskInfo(names, taskInfo))
         == GetDialogInfoFromTaskInfo(names, taskInfo)
  {
    DialogInfoUnchanged(names, GetDialogInfoFromTaskInfo(names, taskInfo));
  }

  /** The output height depends on the input height alone, and the width on the width alone. */
  lemma SizesIndependent(names: DimensionNames, t1: Object, t2: Object)
    ensures Get(t1, "height") == Get(t2, "height") ==>
      GetDialogInfoFromTaskInfo(names, t1)["height"] == GetDialogInfoFromTaskInfo(names, t2)["height"]
    ensures Get(t1, "width") == Get(t2, "width") ==>
      GetDialogInfoFromTaskInfo(names, t1)["width"] == GetDialogInfoFromTaskInfo(names, t2)["width"]
  {
  }

  /** A property outside the seven dialog properties has no effect on the result. */
  lemma OtherFieldsDropped(names: DimensionNames, taskInfo: Object, key: string, v: Value)
    requires key !in DialogFields
    ensures GetDialogInfoFromTaskInfo(names, taskInfo[key := v]) == GetDialogInfoFromTaskInfo(names, taskInfo)
  {
  }

  /** The objects the translation produces are exactly the dialog-shaped ones. */
  lemma DialogInfoIsImage(names: DimensionNames, o: Object)
    ensures IsDialogInfo(names, o) <==> exists taskInfo :: GetDialogInfoFromTaskInfo(names, taskInfo) == o
  {
    if IsDialogInfo(names, o) {
      DialogInfoUnchanged(names, o);
    }
  }

  /** Every enum member is the result of mapping some value. */
  lemma DialogDimensionOnto(names: DimensionNames, d: Dimension)
    requires names.Distinct()
    ensures exists v :: DialogDimension(names, v) == d
  {
    DimensionRoundTrip(names, d);
  }

  /** `startTask({url, height: TaskModuleDimension.Large})` opens a dialog whose height is
      the Large value and whose other properties are present but `undefined`. */
  lemma StartTaskLargeHeight(names: DimensionNames, url: string, handler: Value)
    ensures StartTask(names, map["url" := Str(url), "height" := EnumValue(names, Large)], handler)
         == Open(map[
              "url" := Str(url), "card" := Undefined,
              "height" := EnumValue(names, Large), "width" := Undefined,
              "title" := Undefined, "fallbackUrl" := Undefined, "completionBotId" := Undefined
            ], handler)
  {
  }
}
