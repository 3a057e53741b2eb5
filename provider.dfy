/**
 * The provider root: resolving the Petstore server address from the `server`
 * attribute and the PETSTORE_SERVER environment variable, building one client
 * and publishing it to resources and data sources.
 *
 * os.Getenv and petstoreapi.NewClientWithResponses are not run: the
 * environment value and the constructor's error are inputs, and Configure
 * reports the calls it makes to them as `effects`.
 */
module Provider {
  import opened Framework
  import opened PetstoreApi
  import opened Messages

  const ServerEnvVar: string := "PETSTORE_SERVER"

  /** PetstoreProviderModel: the provider's configuration. */
  datatype PetstoreProviderModel = PetstoreProviderModel(server: StringValue)

  /** The outside calls Configure makes. */
  datatype Effect = Getenv(name: string) | NewClientWithResponses(server: string)

  /** What Configure leaves in its response. */
  datatype ConfigureResponse = ConfigureResponse(
    diagnostics: seq<Diagnostic>,
    dataSourceData: Option<Client>,
    resourceData: Option<Client>)

  /** Added when the `server` attribute is unknown. */
  function UnknownServerError(): Diagnostic {
    AttributeErrorDiagnostic("server", "Unknown PetStore API Host", UnknownPetStoreHost)
  }

  /** Added when the resolved server address is empty. */
  function EmptyServerError(): Diagnostic {
    AttributeErrorDiagnostic("server", "Unknown Petstore API Host", UnknownPetstoreHost)
  }

  /** Added when the client constructor fails with `err`. */
  function ClientCreationError(err: string): Diagnostic {
    ErrorDiagnostic("Unable to Create Petstore API Client", ClientCreationFailed(err))
  }

  /** The server address: the environment value by default, the configured
      value whenever it is not null, even when it is the empty string. */
  function ResolveServer(config: PetstoreProviderModel, env: string): (server: string)
    ensures config.server.IsNull() ==> server == env
    ensures config.server.KnownString? ==> server == config.server.s
    ensures config.server.IsUnknown() ==> server == ""
  {
    if !config.server.IsNull() then config.server.ValueString() else env
  }

  class PetstoreProvider {
    /** "dev", "test" or the release version; used by Metadata only. */
    var version: string

    /** New(version). */
    constructor (version: string)
      ensures this.version == version
    {
      this.version := version;
    }

    /** Configure: `configDiags` are the diagnostics of reading the
        configuration, `env` is what os.Getenv("PETSTORE_SERVER") returns and
        `clientError` the error, if any, of NewClientWithResponses. */
    method Configure(configDiags: seq<Diagnostic>, config: PetstoreProviderModel, env: string,
                     clientError: Option<string>)
      returns (effects: seq<Effect>, resp: ConfigureResponse)
      ensures HasError(configDiags) ==>
                effects == [] && resp == ConfigureResponse(configDiags, None, None)
      ensures !HasError(configDiags) && config.server.IsUnknown() ==>
                effects == [] && resp == ConfigureResponse(configDiags + [UnknownServerError()], None, None)
      ensures !HasError(configDiags) && !config.server.IsUnknown() && ResolveServer(config, env) == "" ==>
                && effects == [Getenv(ServerEnvVar)]
                && resp == ConfigureResponse(configDiags + [EmptyServerError()], None, None)
      ensures !HasError(configDiags) && !config.server.IsUnknown() && ResolveServer(config, env) != "" ==>
                effects == [Getenv(ServerEnvVar), NewClientWithResponses(ResolveServer(config, env))]
      ensures !HasError(configDiags) && !config.server.IsUnknown() && ResolveServer(config, env) != ""
              && clientError.Some? ==>
                resp == ConfigureResponse(configDiags + [ClientCreationError(clientError.value)], None, None)
      ensures !HasError(configDiags) && !config.server.IsUnknown() && ResolveServer(config, env) != ""
              && clientError.None? ==>
                var c := Client(ResolveServer(config, env));
                resp == ConfigureResponse(configDiags, Some(c), Some(c))
      // A client is published, to both consumers alike, exactly when no error was reported,
      // and it is always one built for a non-empty address.
      ensures resp.resourceData == resp.dataSourceData
      ensures resp.resourceData.Some? <==> !HasError(resp.diagnostics)
      ensures resp.resourceData.Some? ==> resp.resourceData.value.server != ""
      ensures forall i :: 0 <= i < |effects| && effects[i].NewClientWithResponses? ==> effects[i].server != ""
    {
      effects := [];
      var diags := configDiags;
      if HasError(diags) {
        return effects, ConfigureResponse(diags, None, None);
      }

      if config.server.IsUnknown() {
        diags := diags + [UnknownServerError()];
        AppendedErrorIsSeen(configDiags, UnknownServerError());
      }
      if HasError(diags) {
        return effects, ConfigureResponse(diags, None, None);
      }

      effects := effects + [Getenv(ServerEnvVar)];
      var server := env;
      if !config.server.IsNull() {
        server := config.server.ValueString();
      }

      if server == "" {
        diags := diags + [EmptyServerError()];
        AppendedErrorIsSeen(configDiags, EmptyServerError());
      }
      if HasError(diags) {
        return effects, ConfigureResponse(diags, None, None);
      }

      effects := effects + [NewClientWithResponses(server)];
      if clientError.Some? {
        diags := diags + [ClientCreationError(clientError.value)];
        AppendedErrorIsSeen(configDiags, ClientCreationError(clientError.value));
        return effects, ConfigureResponse(diags, None, None);
      }

      var client := Client(server);
      resp := ConfigureResponse(diags, Some(client), Some(client));
    }
  }
}
