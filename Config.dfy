/**
 * The pipeline configuration as the core reads it. Loading it from a TOML document
 * is not part of this model; the fields are the ones the core consults.
 */
module Config {

  datatype PipelineConfig = PipelineConfig(
    name: string,
    runId: string,
    rawDir: string,
    processedDir: string,
    reportsDir: string,
    csvFiles: seq<string>,
    jsonFiles: seq<string>,
    outputFormat: string,
    outputBasename: string,
    allowedSites: seq<string>,
    tempCMin: real,
    tempCMax: real,
    humidityMin: real,
    humidityMax: real)
}
