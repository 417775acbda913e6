/** What a route handler answers: a status code with a JSON body, or with an `{ error }` message. */
module Http {
  import opened Validation

  datatype Response<+T> = Success(status: nat, body: T) | Failure(status: nat, error: Message)

  /** The shared error texts of the routes. */
  const Unauthorized := "Bu işlem için yetkiniz yok"
  const NotFound := "Kayıt bulunamadı"
  const InvalidData := "Geçersiz veri"
  const Generic := "Bir hata oluştu. Lütfen tekrar deneyin"
  const UnauthorizedAccess := "Yetkisiz erişim"
}
