/** The run configuration the pipeline reads (the `Config` record of the
    command-line entry point). */
module Configuration {

  const DefaultImageInstruction: string := "What do you see in the image? Be specific and descriptive"

  datatype Config = Config(
    directory: string,
    apiUrl: string,
    apiPassword: string,
    noCrawl: bool,
    forceRehash: bool,
    overwrite: bool,
    dryRun: bool,
    writeKeywords: bool,
    writeTitle: bool,
    writeSubject: bool,
    writeDescription: bool,
    writeCaption: bool,
    imageInstruction: string)
}
