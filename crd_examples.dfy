/** The resource-validation cases of pkg/controller/crd_test.go, stated on the model. */
module CrdValidationExamples {
  import opened Unstructured
  import opened CrdValidation

  /** A resource with the given header, metadata and spec. */
  function Resource(apiVersion: string, kind: string, metadata: map<string, Value>, spec: map<string, Value>): map<string, Value>
  {
    map["apiVersion" := Str(apiVersion), "kind" := Str(kind), "metadata" := Obj(metadata), "spec" := Obj(spec)]
  }

  /** A test resource: correct header, the name "test-device", and the spec `spec`. */
  function TestDevice(spec: map<string, Value>): map<string, Value>
  {
    Resource("sonic.k8s.io/v1", "NetworkDevice", map["name" := Str("test-device")], spec)
  }

  lemma CompleteResourceIsValid()
    ensures SchemaValid(
      Resource("sonic.k8s.io/v1", "NetworkDevice",
               map["name" := Str("sonic-device-01"), "namespace" := Str("default")],
               map["type" := Str("leafRouter"), "osVersion" := Str("202505.01"),
                   "firmwareProfile" := Str("SONiC-Test-Profile"),
                   "operation" := Str("OSUpgrade"), "operationAction" := Str("PreloadImage")])
      + map["status" := Obj(map["state" := Str("Healthy"), "osVersion" := Str("202505.01")])])
  {
  }

  lemma MinimalResourceIsValid()
    ensures SchemaValid(Resource("sonic.k8s.io/v1", "NetworkDevice", map["name" := Str("minimal-device")],
                                 map["type" := Str("leafRouter")]))
  {
  }

  lemma WrongApiVersionIsInvalid()
    ensures !SchemaValid(Resource("v1", "NetworkDevice", map["name" := Str("invalid-device")],
                                  map["type" := Str("leafRouter")]))
  {
  }

  lemma WrongKindIsInvalid()
    ensures !SchemaValid(Resource("sonic.k8s.io/v1", "Device", map["name" := Str("invalid-device")],
                                  map["type" := Str("leafRouter")]))
  {
  }

  lemma MissingNameIsInvalid()
    ensures !SchemaValid(Resource("sonic.k8s.io/v1", "NetworkDevice", map[], map["type" := Str("leafRouter")]))
  {
  }

  lemma MissingSpecIsInvalid()
    ensures !SchemaValid(map["apiVersion" := Str("sonic.k8s.io/v1"), "kind" := Str("NetworkDevice"),
                             "metadata" := Obj(map["name" := Str("no-spec-device")])])
  {
  }

  lemma OperationCombinationIsValid()
    ensures SchemaValid(Resource("sonic.k8s.io/v1", "NetworkDevice", map["name" := Str("operation-device")],
                                 map["type" := Str("leafRouter"), "operation" := Str("OSUpgrade"),
                                     "operationAction" := Str("PreloadImage"), "osVersion" := Str("202505.01")]))
  {
  }

  lemma SpecCases()
    ensures SpecValid(TestDevice(map["type" := Str("leafRouter"), "osVersion" := Str("202505.01"),
                                     "firmwareProfile" := Str("SONiC-Test-Profile"),
                                     "operation" := Str("OSUpgrade"), "operationAction" := Str("PreloadImage")]))
    ensures SpecValid(TestDevice(map["type" := Str("leafRouter")]))
    ensures !SpecValid(TestDevice(map["type" := Str("unknownDevice")]))
    ensures !SpecValid(TestDevice(map["type" := Str("leafRouter"), "operation" := Str("OSUpgrade")]))
    ensures !SpecValid(TestDevice(map["type" := Str("leafRouter"), "operationAction" := Str("PreloadImage")]))
  {
  }

  /** Pairs outside the table are refused even when each half is known elsewhere. */
  lemma MismatchedPairIsInvalid()
    ensures !SpecValid(TestDevice(map["type" := Str("spineRouter"), "operation" := Str("Reboot"),
                                      "operationAction" := Str("PreloadImage")]))
    ensures SpecValid(TestDevice(map["type" := Str("borderRouter"), "operation" := Str("Reboot"),
                                     "operationAction" := Str("HardReboot")]))
  {
  }
}
