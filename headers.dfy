/** The identity headers the widget's requests carry. */
module Headers {
  const UserEmailHeader := "X-User-Email"
  const SessionIdHeader := "X-Session-ID"
}
