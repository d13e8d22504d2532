/** The PIN rotation service: verify the current PIN against the stored `pin` hash, then store the new PIN's hash. */
module PinService {
  import opened Common
  import opened Store

  /** The result record the service returns on every path; it never throws. */
  datatype PinResult = PinResult(success: bool, error: Option<string>)

  const NotFound := "Usuário não encontrado"
  const WrongPin := "PIN atual incorreto"
  const RetryLater := "Ocorreu um erro ao alterar o PIN. Tente novamente mais tarde."

  /** The current PIN matches the row's `pin` column (a null column never matches). */
  predicate PinMatches(crypto: Crypto, row: UserRow, currentPin: string) {
    row.pin.Some? && crypto.verifyPassword(currentPin, row.pin.value)
  }

  /**
   * `pinService.changePin`. A failed lookup yields no data and reads as a
   * missing user. A failing update is thrown inside the service and caught
   * there, so it becomes the generic retry message.
   */
  method ChangePin(db: Database, crypto: Crypto, userId: UserId, currentPin: string, newPin: string,
                   lookupFails: bool, updateFails: bool)
    returns (r: PinResult)
    modifies db
    ensures r.success <==> r.error.None?
    ensures db.saldo == old(db.saldo)
    ensures lookupFails || userId !in old(db.users) ==> r == PinResult(false, Some(NotFound)) && db.users == old(db.users)
    ensures !lookupFails && userId in old(db.users) && !PinMatches(crypto, old(db.users)[userId], currentPin) ==>
              r == PinResult(false, Some(WrongPin)) && db.users == old(db.users)
    ensures !lookupFails && userId in old(db.users) && PinMatches(crypto, old(db.users)[userId], currentPin) ==>
              if updateFails then r == PinResult(false, Some(RetryLater)) && db.users == old(db.users)
              else r == PinResult(true, None) &&
                   db.users == old(db.users)[userId := old(db.users)[userId].(pin := Some(crypto.hashPassword(newPin)))]
  {
    if lookupFails || userId !in db.users {
      return PinResult(false, Some(NotFound));
    }
    var row := db.users[userId];
    var valid := PinMatches(crypto, row, currentPin);
    if !valid {
      return PinResult(false, Some(WrongPin));
    }
    var hashed := crypto.hashPassword(newPin);
    if updateFails {
      return PinResult(false, Some(RetryLater));
    }
    db.users := db.users[userId := row.(pin := Some(hashed))];
    return PinResult(true, None);
  }
}
