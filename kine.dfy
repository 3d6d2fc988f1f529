/** The argument defaulting of the SQL-backed datastore proxy (kine). */
module Kine {

  /** The two arguments used when the caller gives none: a listen address and an
      endpoint, both templates over the proxy's URL and datasource name. */
  const KineDefaultArgs: seq<string> := [
    "--listen-address={{ if .URL }}{{ .URL.String }}{{ end }}",
    "--endpoint={{ .DSN }}"
  ]

  /** A non-empty argument list is used as given; an empty (or nil) one is
      replaced by the default list. */
  function DoKineArgDefaulting(args: seq<string>): (r: seq<string>)
    ensures |args| != 0 ==> r == args
    ensures |args| == 0 ==> r == KineDefaultArgs
    ensures |r| != 0
  {
    if |args| != 0 then args else KineDefaultArgs
  }

  /** Defaulting is idempotent: a defaulted list is never defaulted again. */
  lemma DoKineArgDefaultingIdempotent(args: seq<string>)
    ensures DoKineArgDefaulting(DoKineArgDefaulting(args)) == DoKineArgDefaulting(args)
  {
  }

  /** The default list has exactly two entries, the listen address first and the
      endpoint second. */
  lemma KineDefaultArgsShape()
    ensures |KineDefaultArgs| == 2
    ensures "--listen-address=" <= KineDefaultArgs[0]
    ensures "--endpoint=" <= KineDefaultArgs[1]
  {
  }

  /** The start message is the same fixed prefix whatever the URL's scheme; no
      distinction between secure and insecure listeners is made. */
  function GetKineStartMessage(): (msg: string)
    ensures msg == "Kine listening on "
  {
    "Kine listening on "
  }
}
