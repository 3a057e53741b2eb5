/**
 * The generated Petstore client, as data: the request/response structs it
 * exchanges and, in place of its HTTP calls, the results those calls report.
 * Pointer fields of the generated structs are Options.
 */
module PetstoreApi {
  import opened Framework

  datatype Category = Category(id: Option<Int64>, name: Option<string>)

  datatype Tag = Tag(id: Option<Int64>, name: Option<string>)

  /** petstoreapi.Pet; `status` is a PetStatus, which is a plain string. */
  datatype Pet = Pet(id: Option<Int64>, name: string, category: Option<Category>,
                     tags: Option<seq<Tag>>, status: Option<string>)

  const PetStatusAvailable: string := "available"
  const PetStatusPending: string := "pending"
  const PetStatusSold: string := "sold"

  /** petstoreapi.UpdatePetWithFormParams. */
  datatype UpdatePetWithFormParams = UpdatePetWithFormParams(name: Option<string>, status: Option<string>)

  /** A client built for one server address. */
  datatype Client = Client(server: string)

  /** What a *WithResponse call reports: a transport error, or an HTTP response
      whose JSON200 field is set only when the server answered 200 with a pet. */
  datatype ApiResult = ClientFailure(err: string) | HttpResponse(statusCode: int, json200: Option<Pet>)

  /** The requests the provider sends through the client. */
  datatype ApiCall =
    | AddPet(body: Pet)
    | GetPetById(petId: Int64)
    | UpdatePetWithForm(petId: Int64, params: UpdatePetWithFormParams)
}
