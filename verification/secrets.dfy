/** The configuration language's secret string: a distinct type wrapping the
    underlying text, so that a password is never confused with an ordinary
    string. Only an explicit conversion gives the text back. */
module Secrets {

  datatype Secret = Secret(text: string) {

    /** The Go conversion `string(secret)`: the underlying text, unchanged. */
    function Reveal(): (s: string)
      ensures Secret(s) == this
    {
      text
    }
  }
}
