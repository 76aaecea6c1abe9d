/**
  The exceptions an SMTP delivery session (connect, STARTTLS, login, send)
  can raise, as the Python library classes that the notifiers' `except`
  clauses name, together with Python's isinstance relation among them.
  */
module Smtp {

  /**
    The most specific listed class of a raised exception. `SMTPResponseException`
    stands for every response-coded error not listed separately (HELO, sender
    refused, data errors); `SMTPException` for every other library error; and
    `OSError` for socket-level failures (refused connection, timeout, TLS).
    */
  datatype Class =
    | SMTPAuthenticationError
    | SMTPConnectError
    | SMTPServerDisconnected
    | SMTPResponseException
    | SMTPRecipientsRefused
    | SMTPException
    | OSError

  /** The outcome of one delivery session. */
  datatype Attempt = Accepted | Raises(exception: Class)

  /**
    Subclassing in the library: every SMTP error is an OSError, the
    authentication and connect errors are response exceptions, and every
    SMTP class other than OSError is an SMTPException.
    */
  predicate IsSubclass(c: Class, parent: Class)
  {
    || c == parent
    || parent == OSError
    || (parent == SMTPException && c != OSError)
    || (parent == SMTPResponseException && (c == SMTPAuthenticationError || c == SMTPConnectError))
  }

  /** An `except parent` clause catches an exception of class c. */
  predicate Catches(parent: Class, c: Class)
  {
    IsSubclass(c, parent)
  }

  /** The authentication error would also be caught by an
      `except SMTPResponseException` clause, so clause order matters. */
  lemma AuthenticationIsResponse()
    ensures Catches(SMTPResponseException, SMTPAuthenticationError)
    ensures Catches(SMTPResponseException, SMTPConnectError)
    ensures !Catches(SMTPResponseException, SMTPServerDisconnected)
    ensures !Catches(SMTPResponseException, SMTPRecipientsRefused)
  {
  }
}
