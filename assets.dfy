/** Where the scene loads its assets from: the application is served either at the site root or under `/flappy-bird`. */
module Assets {

  const APP_DIRECTORY: string := "/flappy-bird"

  /** `getBaseUrl`, with `window.location.pathname` passed in. */
  function GetBaseUrl(pathname: string): (base: string)
    ensures |base| >= 1 && base[0] == '/' && base[|base| - 1] == '/'
    ensures base != "/" <==> APP_DIRECTORY <= pathname
    ensures base != "/" ==> base == APP_DIRECTORY + "/"
    ensures base[..|base| - 1] <= pathname
  {
    if APP_DIRECTORY <= pathname then APP_DIRECTORY + "/" else "/"
  }
}
