/** Fixed names, URLs and policies of the SDK (cms_bluebutton/constants.py). */
module Constants {
  import opened Wrappers

  const SdkHeader: string := "python"
  const SdkHeaderKey: string := "X-BLUEBUTTON-SDK"

  /** ENVIRONMENT_URLS: the two deployments a configuration may name. */
  const EnvironmentUrls: map<string, string> := map[
    "SANDBOX" := "https://sandbox.bluebutton.cms.gov",
    "PRODUCTION" := "https://api.bluebutton.cms.gov"
  ]

  /** FHIR_RESOURCE_TYPE: the resource paths behind the get_*_data wrappers. */
  const PatientPath: string := "fhir/Patient/"
  const CoveragePath: string := "fhir/Coverage/"
  const ProfilePath: string := "connect/userinfo"
  const ExplanationOfBenefitPath: string := "fhir/ExplanationOfBenefit/"

  /** The urllib3 `Retry` arguments the resource request mounts. */
  datatype RetryPolicy = RetryPolicy(total: nat, backoffFactor: nat, statusForcelist: seq<int>)

  const FhirRetry: RetryPolicy := RetryPolicy(3, 5, [500, 502, 503, 504])
}
