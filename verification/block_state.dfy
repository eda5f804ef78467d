/** The state word of a block: two validation bits and two confirmation bits. */
module BlockState {

  type StateWord = bv8

  const MISSING: StateWord := 0
  const FAILED: StateWord := 1
  const VALID: StateWord := 2
  const CANDIDATE: StateWord := 4
  const CONFIRMED: StateWord := 8
  const VALIDATIONS: StateWord := FAILED | VALID
  const CONFIRMATIONS: StateWord := CANDIDATE | CONFIRMED

  predicate IsFailed(state: StateWord) {
    state & FAILED != 0
  }

  predicate IsValid(state: StateWord) {
    state & VALID != 0
  }

  predicate IsCandidate(state: StateWord) {
    state & CANDIDATE != 0
  }

  predicate IsConfirmed(state: StateWord) {
    state & CONFIRMED != 0
  }

  /** Never failed and valid, never candidate and confirmed, and confirmed only when valid. */
  predicate Legal(state: StateWord) {
    && !(IsFailed(state) && IsValid(state))
    && !(IsCandidate(state) && IsConfirmed(state))
    && (IsConfirmed(state) ==> IsValid(state))
  }

  /** Keep the confirmation bits; exactly one validation bit is set. */
  function UpdateValidation(original: StateWord, positive: bool): StateWord {
    (original & CONFIRMATIONS) | (if positive then VALID else FAILED)
  }

  /** Preserve the validation state; deconfirmation is always to the pooled state. */
  function UpdateConfirmation(original: StateWord, positive: bool, candidate: bool): StateWord {
    (original & VALIDATIONS) |
    (if !positive then MISSING else if candidate then CANDIDATE else CONFIRMED)
  }

  lemma ValidationBits(original: StateWord, positive: bool)
    ensures var updated := UpdateValidation(original, positive);
            && IsValid(updated) == positive && IsFailed(updated) == !positive
            && IsCandidate(updated) == IsCandidate(original) && IsConfirmed(updated) == IsConfirmed(original)
  {
    assert original & CONFIRMATIONS & VALID == 0 && original & CONFIRMATIONS & FAILED == 0;
  }

  lemma ConfirmationBits(original: StateWord, positive: bool, candidate: bool)
    ensures var updated := UpdateConfirmation(original, positive, candidate);
            && IsCandidate(updated) == (positive && candidate)
            && IsConfirmed(updated) == (positive && !candidate)
            && IsValid(updated) == IsValid(original) && IsFailed(updated) == IsFailed(original)
  {
    assert original & VALIDATIONS & CANDIDATE == 0 && original & VALIDATIONS & CONFIRMED == 0;
  }

  /** What each update may be asked to do keeps the word legal. */
  lemma UpdatesKeepLegal(original: StateWord, positive: bool, candidate: bool)
    requires Legal(original)
    ensures positive || !IsConfirmed(original) ==> Legal(UpdateValidation(original, positive))
    ensures (positive && !candidate ==> IsValid(original)) ==> Legal(UpdateConfirmation(original, positive, candidate))
  {
    ValidationBits(original, positive);
    ConfirmationBits(original, positive, candidate);
  }

  /** An update overwrites the confirmation state whatever it was. */
  lemma LastConfirmationWins(original: StateWord, p: bool, c: bool, positive: bool, candidate: bool)
    ensures UpdateConfirmation(UpdateConfirmation(original, p, c), positive, candidate) ==
            UpdateConfirmation(original, positive, candidate)
  {
    var validation: StateWord := original & VALIDATIONS;
    assert (validation | MISSING) & VALIDATIONS == validation;
    assert (validation | CANDIDATE) & VALIDATIONS == validation;
    assert (validation | CONFIRMED) & VALIDATIONS == validation;
  }

  /** An update changes nothing exactly when the word has that confirmation state already. */
  lemma ConfirmationIsIdempotent(original: StateWord)
    requires original < 16 && Legal(original)
    ensures UpdateConfirmation(original, true, true) == original <==> IsCandidate(original)
    ensures UpdateConfirmation(original, false, true) == original <==> !IsCandidate(original) && !IsConfirmed(original)
    ensures UpdateConfirmation(original, true, false) == original <==> IsConfirmed(original)
    ensures UpdateConfirmation(original, false, false) == original <==> !IsCandidate(original) && !IsConfirmed(original)
  {
  }

  lemma UpdatesStayInWord(original: StateWord, positive: bool, candidate: bool)
    requires original < 16
    ensures UpdateValidation(original, positive) < 16
    ensures UpdateConfirmation(original, positive, candidate) < 16
  {
  }
}
