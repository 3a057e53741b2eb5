/**
 * The detail texts of the diagnostics the provider reports. A diagnostic
 * carries its detail as one of these templates with its arguments; Text
 * renders the wording the user reads. Keeping the long wording out of the
 * diagnostics keeps the proofs about them small.
 */
module Messages {

  datatype Detail =
    | WrongProviderDataType(goType: string)
    | CallFailed(verb: string, err: string)
    | BadStatus(verb: string, statusCode: string)
    | UnknownPetStoreHost
    | UnknownPetstoreHost
    | ClientCreationFailed(err: string)

  const HostHelp: string :=
    "Either target apply the source of the value first, set the value statically in the configuration, or use the PETSTORE_SERVER environment variable."

  /** The text of a detail, as fmt.Sprintf and the string concatenations build it. */
  function Text(d: Detail): string {
    match d
    case WrongProviderDataType(t) =>
      "Expected *petstoreapi.ClientWithResponses, got: " + t + ". Please report this issue to the provider developers."
    case CallFailed(verb, err) => "Unable to " + verb + " pet, got error: " + err
    case BadStatus(verb, code) => "Unable to " + verb + " pet, got status code: " + code
    case UnknownPetStoreHost =>
      "The provider cannot create the PetStore API client as there is an unknown configuration value for the PetStore API host. " + HostHelp
    case UnknownPetstoreHost =>
      "The provider cannot create the Petstore API client as there is an unknown configuration value for the Petstore API host. " + HostHelp
    case ClientCreationFailed(err) =>
      "An unexpected error occurred when creating the Petstore API client. If the error is not clear, please contact the provider developers.\n\nPetstore Client Error: " + err
  }
}
