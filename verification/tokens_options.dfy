/** The functional options of `VerifyToken` defined in
    `clerk/tokens_options.go`. The options record itself is declared
    elsewhere; only the two fields these options write are modelled. */
module TokensOptions {
  import opened Wrappers
  import Sets
  import Decimal

  /** `verifyTokenOptions`: `authorizedParties` is a Go map, so it can be nil
      (`None`) or a set; `leeway` is a `time.Duration` in nanoseconds. */
  datatype VerifyTokenOptions = VerifyTokenOptions(authorizedParties: Option<set<string>>, leeway: Decimal.Int64)

  /** The options after an option function ran, and the error it returned
      (`None` is a nil error). */
  datatype Applied = Applied(options: VerifyTokenOptions, err: Option<string>)

  /** `VerifyTokenOption`: a function that rewrites the options record. */
  type VerifyTokenOption = VerifyTokenOptions -> Applied

  /** `WithAuthorizedParty(parties...)`: installs a fresh, non-nil set whose
      members are exactly the given parties, replacing (never merging with)
      any earlier set; the leeway is untouched and no error is returned. */
  function WithAuthorizedParty(parties: seq<string>): (opt: VerifyTokenOption)
    ensures forall o :: opt(o).err.None?
    ensures forall o :: opt(o).options.authorizedParties.Some?
    ensures forall o, p :: p in opt(o).options.authorizedParties.value <==> p in parties
    ensures forall o :: opt(o).options.leeway == o.leeway
  {
    (o: VerifyTokenOptions) => Applied(o.(authorizedParties := Some(Sets.ToSet(parties))), None)
  }

  /** `WithLeeway(d)`: sets the leeway to exactly `d`; the authorized set is
      untouched and no error is returned. */
  function WithLeeway(d: Decimal.Int64): (opt: VerifyTokenOption)
    ensures forall o :: opt(o).err.None?
    ensures forall o :: opt(o).options.leeway == d
    ensures forall o :: opt(o).options.authorizedParties == o.authorizedParties
  {
    (o: VerifyTokenOptions) => Applied(o.(leeway := d), None)
  }

  /** With no arguments, `WithAuthorizedParty` installs the empty set, which
      is distinct from leaving the field nil. */
  lemma WithNoPartiesInstallsEmptySet(o: VerifyTokenOptions)
    ensures WithAuthorizedParty([])(o).options.authorizedParties == Some({})
  {
  }

  /** Applying `WithAuthorizedParty` twice keeps only the second list: the
      earlier set is replaced, not merged. */
  lemma WithAuthorizedPartyReplaces(o: VerifyTokenOptions, first: seq<string>, second: seq<string>)
    ensures WithAuthorizedParty(second)(WithAuthorizedParty(first)(o).options)
         == WithAuthorizedParty(second)(o)
  {
  }
}
