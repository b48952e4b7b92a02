/** PetEndpoint.java: one request per operation on the `/pet` resource. No
    argument is validated locally; whatever the caller gives is forwarded. */
module PetEndpoints {
  import opened Wrappers
  import opened Primitives
  import opened Models
  import opened Http

  const PetPath: Template := Append(Empty, Fixed("/pet"))
  const PetById: Template := Append(Append(PetPath, Fixed("/")), Placeholder("petId"))
  const PetByStatus: Template := Append(PetPath, Fixed("/findByStatus"))
  /** Declared by the source and used by no operation. */
  const PetUploadImage: Template := Append(PetById, Fixed("/uploadImage"))

  /** The path templates, spelled out, and the placeholders each one has. */
  lemma PetTemplates()
    ensures Render(PetPath) == "/pet" && Placeholders(PetPath) == []
    ensures Render(PetById) == "/pet/{petId}" && Placeholders(PetById) == ["petId"]
    ensures Render(PetByStatus) == "/pet/findByStatus" && Placeholders(PetByStatus) == []
    ensures Render(PetUploadImage) == "/pet/{petId}/uploadImage"
    ensures Placeholders(PetUploadImage) == ["petId"]
  {
  }

  /** The endpoint holds the specification it captured when it was built and
      never replaces it. */
  datatype PetEndpoint = PetEndpoint(requestSpec: RequestSpec)

  /** `new PetEndpoint()`: captures the specification `TestConfig.getRequestSpec()` returns. */
  function NewPetEndpoint(spec: RequestSpec): (e: PetEndpoint)
    ensures e.requestSpec == spec
  {
    PetEndpoint(spec)
  }

  /** `createPet`. */
  function CreatePet(e: PetEndpoint, pet: Pet): (r: Request)
    ensures r.spec == e.requestSpec && r.verb == Post && Render(r.template) == "/pet"
    ensures r.pathParams == [] && r.queryParams == [] && r.formParams == [] && r.headers == []
    ensures r.body == Some(PetBody(pet))
    ensures PathParamsBound(r)
  {
    PetTemplates();
    Send(WithBody(Given(e.requestSpec), PetBody(pet)), Post, PetPath)
  }

  /** `getPetById`. */
  function GetPetById(e: PetEndpoint, petId: Long): (r: Request)
    ensures r.spec == e.requestSpec && r.verb == Get && Render(r.template) == "/pet/{petId}"
    ensures r.pathParams == [Param("petId", LongValue(petId))]
    ensures r.queryParams == [] && r.formParams == [] && r.headers == [] && r.body.None?
    ensures PathParamsBound(r)
  {
    PetTemplates();
    var r := Send(PathParam(Given(e.requestSpec), "petId", LongValue(petId)), Get, PetById);
    r
  }

  /** `getPetsByStatus`: the status string is sent as given, valid or not. */
  function GetPetsByStatus(e: PetEndpoint, status: string): (r: Request)
    ensures r.spec == e.requestSpec && r.verb == Get && Render(r.template) == "/pet/findByStatus"
    ensures r.queryParams == [Param("status", StringValue(status))]
    ensures r.pathParams == [] && r.formParams == [] && r.headers == [] && r.body.None?
    ensures PathParamsBound(r)
  {
    PetTemplates();
    Send(QueryParam(Given(e.requestSpec), "status", StringValue(status)), Get, PetByStatus)
  }

  /** `updatePet`. */
  function UpdatePet(e: PetEndpoint, pet: Pet): (r: Request)
    ensures r.spec == e.requestSpec && r.verb == Put && Render(r.template) == "/pet"
    ensures r.pathParams == [] && r.queryParams == [] && r.formParams == [] && r.headers == []
    ensures r.body == Some(PetBody(pet))
    ensures PathParamsBound(r)
  {
    PetTemplates();
    Send(WithBody(Given(e.requestSpec), PetBody(pet)), Put, PetPath)
  }

  /** `updatePetWithFormData`: form fields `name` then `status`, no body. */
  function UpdatePetWithFormData(e: PetEndpoint, petId: Long, name: string, status: string): (r: Request)
    ensures r.spec == e.requestSpec && r.verb == Post && Render(r.template) == "/pet/{petId}"
    ensures r.pathParams == [Param("petId", LongValue(petId))]
    ensures r.formParams == [Param("name", StringValue(name)), Param("status", StringValue(status))]
    ensures r.queryParams == [] && r.headers == [] && r.body.None?
    ensures PathParamsBound(r)
  {
    PetTemplates();
    var d := PathParam(Given(e.requestSpec), "petId", LongValue(petId));
    var r := Send(FormParam(FormParam(d, "name", StringValue(name)), "status", StringValue(status)), Post, PetById);
    r
  }

  /** `deletePet`. */
  function DeletePet(e: PetEndpoint, petId: Long): (r: Request)
    ensures r.spec == e.requestSpec && r.verb == Delete && Render(r.template) == "/pet/{petId}"
    ensures r.pathParams == [Param("petId", LongValue(petId))]
    ensures r.queryParams == [] && r.formParams == [] && r.headers == [] && r.body.None?
    ensures PathParamsBound(r)
  {
    PetTemplates();
    var r := Send(PathParam(Given(e.requestSpec), "petId", LongValue(petId)), Delete, PetById);
    r
  }

  /** `deletePetWithApiKey`: the header `api_key` on top of the spec's headers. */
  function DeletePetWithApiKey(e: PetEndpoint, petId: Long, apiKey: string): (r: Request)
    ensures r.spec == e.requestSpec && r.verb == Delete && Render(r.template) == "/pet/{petId}"
    ensures r.headers == [Header("api_key", apiKey)]
    ensures r.pathParams == [Param("petId", LongValue(petId))]
    ensures r.queryParams == [] && r.formParams == [] && r.body.None?
    ensures PathParamsBound(r)
  {
    PetTemplates();
    var d := WithHeader(Given(e.requestSpec), "api_key", apiKey);
    var r := Send(PathParam(d, "petId", LongValue(petId)), Delete, PetById);
    r
  }

  /** Updating a pet sends what creating it sends, with PUT instead of POST. */
  lemma UpdateIsCreateWithPut(e: PetEndpoint, pet: Pet)
    ensures UpdatePet(e, pet) == CreatePet(e, pet).(verb := Put)
  {
  }

  /** Deleting with an API key is deleting plus exactly one header. */
  lemma DeleteWithApiKeyAddsHeader(e: PetEndpoint, petId: Long, apiKey: string)
    ensures DeletePetWithApiKey(e, petId, apiKey) == DeletePet(e, petId).(headers := [Header("api_key", apiKey)])
  {
  }

  /** The form update targets the same resource as reading and deleting the pet. */
  lemma FormUpdateTargetsPet(e: PetEndpoint, petId: Long, name: string, status: string)
    ensures UpdatePetWithFormData(e, petId, name, status).template == GetPetById(e, petId).template
    ensures UpdatePetWithFormData(e, petId, name, status).pathParams == DeletePet(e, petId).pathParams
  {
  }

  /** Every operation of an endpoint uses the one specification it captured. */
  lemma OperationsUseCapturedSpec(spec: RequestSpec, pet: Pet, petId: Long, s: string, k: string)
    ensures var e := NewPetEndpoint(spec);
      && CreatePet(e, pet).spec == spec && GetPetById(e, petId).spec == spec
      && GetPetsByStatus(e, s).spec == spec && UpdatePet(e, pet).spec == spec
      && UpdatePetWithFormData(e, petId, s, s).spec == spec && DeletePet(e, petId).spec == spec
      && DeletePetWithApiKey(e, petId, k).spec == spec
  {
  }
}
