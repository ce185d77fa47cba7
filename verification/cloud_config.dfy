/** The `GoogleCloudConfig` record that selects and parameterises the AI backends. */
module CloudConfig {
  datatype GoogleCloudConfig = GoogleCloudConfig(
    ProjectID: string,
    Location: string,
    CredentialsPath: string,
    GeminiModel: string,
    ImagenModel: string,
    UseStudioAPI: bool,
    StudioAPIKey: string)
}
