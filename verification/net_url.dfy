/** The parts of a `net/url.URL` the place-order process carries around. The model never
    parses or prints URLs; it only moves them between the context, the state data and the
    gateway, so a plain record is enough. */
module NetUrl {

  datatype Url = Url(scheme: string, host: string, path: string, rawQuery: string)
}
