/**
 * The constants of the data-product generator: default field values,
 * accepted enumerations, record sources and annotation names.
 */
module Constants {

  // Defaults for a data product (lib/dataProducts/constants.js).
  const DEFAULT_VERSION := "1.0.0"
  const DEFAULT_TYPE := "primary"
  const DEFAULT_VISIBILITY := "internal"
  const DEFAULT_RELEASE_STATUS := "active"
  const DEFAULT_CATEGORY := "business-object"
  const DEFAULT_RESPONSIBLE := "sap:ach:CIC-DP-CO"

  /** The data product types the generator accepts. */
  const VALID_TYPES := ["primary", "derived"]

  /** The resource visibilities, in the order the messages list them. */
  const RESOURCE_VISIBILITIES := ["public", "internal", "private"]

  /** The release statuses a record may carry. */
  const RELEASE_STATUSES := ["beta", "active", "deprecated", "decommissioned"]

  /** The lifecycle statuses a record may carry. */
  const LIFECYCLE_STATUSES := ["inactive", "provisioning", "active", "deprovisioning", "active-with-errors"]

  // Where a record's content came from.
  const SOURCE_DEFAULT := "default"
  const SOURCE_ANNOTATED := "annotated"
  const SOURCE_CUSTOM := "custom"

  // Annotation names.
  const ANN_DATA_PRODUCT := "@ORD.dataProduct"
  const ANN_SCHEMA := "@ORD.schema"
  const ANN_LINEAGE := "@ORD.lineage"
  const ANN_TAG := "@ORD.tag"

  /**
   * The prefix of a default description. Its value lives in a shared
   * constants module outside the data-product generator, so the model
   * keeps it unspecified.
   */
  const DESCRIPTION_PREFIX: string

  /** The optional keys the entry builder copies when they hold a value. */
  const OPTIONAL_KEYS := ["tags", "industry", "lineOfBusiness", "countries", "labels", "documentationLabels",
                          "correlationIds", "lifecycleStatus", "deprecationDate", "sunsetDate", "successors",
                          "changelogEntries", "lastUpdate", "policyLevel", "customPolicyLevel",
                          "systemInstanceAware", "dataProductLinks", "links", "lineage", "entityTypes",
                          "additionalDetails"]

  /** The keys of the entry builder's basic structure, in its order. */
  const BASE_KEYS := ["ordId", "localId", "title", "shortDescription", "description", "version", "releaseStatus",
                      "visibility", "partOfPackage", "responsible", "type", "category", "outputPorts", "inputPorts"]

  /**
   * A key name that is either `ordId`, which the merge key then writes a
   * second time with the same id, or one the entry builder does not
   * otherwise use.
   */
  type MergeKey = k: string | k == "ordId" || (k !in BASE_KEYS && k !in OPTIONAL_KEYS) witness "ordId"

  /**
   * The key under which a built entry repeats its id for content merging.
   * Its value lives in the shared constants module, so the model keeps it
   * unspecified beyond what `MergeKey` allows.
   */
  const CONTENT_MERGE_KEY: MergeKey

  // Data product descriptor (DPD) constants (lib/dataProducts/dpd/constants.js).
  const DPD_BUILD_DEFAULT_PATH := "gen/dpd"
  const FOS_SCHEMA_URL := "https://github.tools.sap/bdc-fos/dp-metadata/blob/main/schemas/json/v2/DataProduct-v2.json"
  const DPD_VALID_TYPES := ["primary", "derived"]
  const DPD_VALID_CATEGORIES := ["business-object", "master-data", "analytical", "event"]
  const DPD_VALID_VISIBILITY := ["internal", "external", "public"]
  const DPD_DEFAULT_STATUS := "active"
}
