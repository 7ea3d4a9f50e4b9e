/** src/sync/strategy.rs: the synchronisation strategies and their names. */
module SyncStrategy {
  import Text

  datatype SyncStrategy = Full | Incremental | OnDemand {

    /** `as_str`. */
    function AsStr(): string {
      match this
      case Full => "full"
      case Incremental => "incremental"
      case OnDemand => "on-demand"
    }
  }

  /** No letter of `s` is an upper-case ASCII letter. */
  predicate IsLowercase(s: string) {
    forall i | 0 <= i < |s| :: !Text.IsAsciiUpper(s[i])
  }

  /** test_sync_strategy. */
  lemma Names()
    ensures Full.AsStr() == "full"
    ensures Incremental.AsStr() == "incremental"
    ensures OnDemand.AsStr() == "on-demand"
  {
  }

  /** Distinct strategies have distinct names. */
  lemma AsStrInjective(a: SyncStrategy, b: SyncStrategy)
    ensures a.AsStr() == b.AsStr() <==> a == b
  {
  }

  /** Every name is non-empty and lower case. */
  lemma NamesNonEmptyLowercase(s: SyncStrategy)
    ensures s.AsStr() != []
    ensures IsLowercase(s.AsStr())
  {
  }
}
