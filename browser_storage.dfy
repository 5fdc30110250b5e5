/** The one entry of the browser's `localStorage` the client uses, `'token'`
    (frontend/src/lib/api.ts:21,36; frontend/src/stores/authStore.ts:30,37). The request
    interceptor reads it and the response interceptor and the auth store write it. */
module BrowserStorage {
  import opened Wrappers

  class LocalStorage {
    /** `localStorage.getItem('token')`; `None` is `null`. */
    var token: Option<string>

    constructor ()
      ensures token.None?
    {
      token := None;
    }

    method SetToken(t: string)
      modifies this
      ensures token == Some(t)
    {
      token := Some(t);
    }

    method RemoveToken()
      modifies this
      ensures token.None?
    {
      token := None;
    }
  }
}
