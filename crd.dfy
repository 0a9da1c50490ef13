/**
 * The NetworkDevice resource validators (`validateNetworkDeviceSchema` and
 * `validateNetworkDeviceSpec` in pkg/controller/crd_test.go). A resource is
 * well formed when its header names the sonic.k8s.io/v1 NetworkDevice kind,
 * it has a name and a spec object, and the spec is valid: a known device
 * type, and either no operation at all or an operation with one of the
 * actions allowed for it.
 */
module CrdValidation {
  import opened Unstructured

  const ApiVersion := "sonic.k8s.io/v1"
  const Kind := "NetworkDevice"

  /** The device types, in the order they are searched. */
  const ValidTypes: seq<string> := ["leafRouter", "spineRouter", "borderRouter"]

  /** The actions allowed for each operation. */
  const ValidCombinations: map<string, seq<string>> :=
    map["OSUpgrade" := ["PreloadImage", "Install", "Activate"],
        "ConfigUpdate" := ["ApplyConfig"],
        "Reboot" := ["SoftReboot", "HardReboot"]]

  /** The operation/action pair is allowed. */
  predicate CombinationAllowed(operation: string, operationAction: string)
  {
    operation in ValidCombinations && operationAction in ValidCombinations[operation]
  }

  /** The spec rules, stated by membership. */
  predicate SpecValid(device: map<string, Value>)
  {
    var deviceType := NestedString(device, ["spec", "type"]);
    var operation := NestedString(device, ["spec", "operation"]);
    var operationAction := NestedString(device, ["spec", "operationAction"]);
    && deviceType.Found? && deviceType.value in ValidTypes
    && operation.Found? == operationAction.Found?
    && (operation.Found? ==> CombinationAllowed(operation.value, operationAction.value))
  }

  /** The header and spec-presence rules, followed by the spec rules. */
  predicate SchemaValid(device: map<string, Value>)
  {
    && StringOrEmpty(device, ["apiVersion"]) == ApiVersion
    && StringOrEmpty(device, ["kind"]) == Kind
    && StringOrEmpty(device, ["metadata", "name"]) != ""
    && NestedMap(device, ["spec"]).Found?
    && SpecValid(device)
  }

  /** The linear search of the validators' loops: is `s` one of `candidates`? */
  method IsOneOf(s: string, candidates: seq<string>) returns (found: bool)
    ensures found <==> s in candidates
  {
    found := false;
    var i := 0;
    while i < |candidates|
      invariant 0 <= i <= |candidates|
      invariant found <==> s in candidates[..i]
    {
      if s == candidates[i] {
        found := true;
        break;
      }
      i := i + 1;
    }
    assert found || candidates[..i] == candidates;
  }

  /** `validateNetworkDeviceSpec`. */
  method ValidateNetworkDeviceSpec(device: map<string, Value>) returns (valid: bool)
    ensures valid == SpecValid(device)
  {
    var deviceType := NestedString(device, ["spec", "type"]);
    if !deviceType.Found? || deviceType.value == "" {
      return false;
    }
    var isValidType := IsOneOf(deviceType.value, ValidTypes);
    if !isValidType {
      return false;
    }
    var operation := NestedString(device, ["spec", "operation"]);
    var operationAction := NestedString(device, ["spec", "operationAction"]);
    if operation.Found? != operationAction.Found? {
      return false;
    }
    if operation.Found? && operationAction.Found? {
      if operation.value !in ValidCombinations {
        return false;
      }
      var validActions := ValidCombinations[operation.value];
      var isValidAction := IsOneOf(operationAction.value, validActions);
      if !isValidAction {
        return false;
      }
    }
    return true;
  }

  /** `validateNetworkDeviceSchema`. */
  method ValidateNetworkDeviceSchema(device: map<string, Value>) returns (valid: bool)
    ensures valid == SchemaValid(device)
  {
    if StringOrEmpty(device, ["apiVersion"]) != ApiVersion {
      return false;
    }
    if StringOrEmpty(device, ["kind"]) != Kind {
      return false;
    }
    if StringOrEmpty(device, ["metadata", "name"]) == "" {
      return false;
    }
    var spec := NestedMap(device, ["spec"]);
    if !spec.Found? {
      return false;
    }
    valid := ValidateNetworkDeviceSpec(device);
  }

  // ---------------------------------------------------------------------
  // Properties.

  /** A well-formed resource has a valid spec: the schema check ends with the spec check. */
  lemma SchemaValidImpliesSpecValid(device: map<string, Value>)
    requires SchemaValid(device)
    ensures SpecValid(device)
    ensures NestedMap(device, ["spec"]).Found?
  {
  }

  /** The allowed pairs, listed. */
  lemma CombinationsListed(operation: string, operationAction: string)
    ensures CombinationAllowed(operation, operationAction)
        <==> (operation, operationAction) in
               {("OSUpgrade", "PreloadImage"), ("OSUpgrade", "Install"), ("OSUpgrade", "Activate"),
                ("ConfigUpdate", "ApplyConfig"), ("Reboot", "SoftReboot"), ("Reboot", "HardReboot")}
  {
    if operation == "OSUpgrade" {
      assert ValidCombinations[operation] == ["PreloadImage", "Install", "Activate"];
    } else if operation == "ConfigUpdate" {
      assert ValidCombinations[operation] == ["ApplyConfig"];
    } else if operation == "Reboot" {
      assert ValidCombinations[operation] == ["SoftReboot", "HardReboot"];
    } else {
      assert operation !in ValidCombinations;
    }
  }

  /**
   * The spec rules read the `spec` object alone: for a resource whose spec
   * is the object `spec`, validity is decided by `spec`'s type, operation
   * and action fields.
   */
  lemma SpecValidOnSpecObject(device: map<string, Value>, spec: map<string, Value>)
    requires "spec" in device && device["spec"] == Obj(spec)
    ensures SpecValid(device)
        <==> && NestedString(spec, ["type"]).Found? && NestedString(spec, ["type"]).value in ValidTypes
             && NestedString(spec, ["operation"]).Found? == NestedString(spec, ["operationAction"]).Found?
             && (NestedString(spec, ["operation"]).Found? ==>
                   CombinationAllowed(NestedString(spec, ["operation"]).value,
                                      NestedString(spec, ["operationAction"]).value))
  {
    NestedStringInSpec(device, spec, "type");
    NestedStringInSpec(device, spec, "operation");
    NestedStringInSpec(device, spec, "operationAction");
  }

  /** A spec with a known type and neither operation field is valid. */
  lemma TypeAloneIsValid(device: map<string, Value>, spec: map<string, Value>)
    requires "spec" in device && device["spec"] == Obj(spec)
    requires "type" in spec && spec["type"].Str? && spec["type"].s in ValidTypes
    requires "operation" !in spec && "operationAction" !in spec
    ensures SpecValid(device)
  {
    SpecValidOnSpecObject(device, spec);
  }

  /** An operation without an action, or an action without an operation, makes the spec invalid. */
  lemma OperationNeedsAction(device: map<string, Value>, spec: map<string, Value>)
    requires "spec" in device && device["spec"] == Obj(spec)
    requires ("operation" in spec && spec["operation"].Str? && "operationAction" !in spec)
          || ("operationAction" in spec && spec["operationAction"].Str? && "operation" !in spec)
    ensures !SpecValid(device)
  {
    SpecValidOnSpecObject(device, spec);
  }

  /** An unknown device type, or a missing one, makes the spec invalid whatever else it holds. */
  lemma UnknownTypeIsInvalid(device: map<string, Value>, spec: map<string, Value>)
    requires "spec" in device && device["spec"] == Obj(spec)
    requires !("type" in spec && spec["type"].Str? && spec["type"].s in ValidTypes)
    ensures !SpecValid(device)
  {
    SpecValidOnSpecObject(device, spec);
  }
}
