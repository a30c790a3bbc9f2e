/** What the release lookup `getLatestRelease` can hand back to its caller.
    The HTTPS request and the JSON parsing behind it are not modelled; the
    lookup is an oracle whose answer is an input of the model. */
module Updater {

  /** A published release: the page to open and the release's tag. */
  datatype ReleaseInfo = ReleaseInfo(url: string, version: string)

  /** The three ways the lookup ends: the server answered with something
      other than 200 OK (`null` in the source), a release was parsed, or an
      exception escaped (network failure, a body that is not the expected
      JSON object). */
  datatype LookupResult = NoRelease | Found(info: ReleaseInfo) | Threw
}
