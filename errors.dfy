/** The Python exceptions that the core can raise, named as Python names them. */
module Errors {

  datatype Error =
    /** httpx.RequestError: the transport failed (connect, read timeout, protocol error). */
    | RequestError
    /** httpx.HTTPStatusError raised by the core itself; it carries the response's status and headers
        (header names in the lower case httpx compares them in). */
    | HTTPStatusError(status: int, headers: map<string, string>)
    /** json.JSONDecodeError: a body or a stream chunk is not a JSON document. */
    | JSONDecodeError
    | KeyError(key: string)
    | TypeError
    | AttributeError
    | ValueError
    | IndexError
    /** OSError from opening a file. */
    | OSError
    /** configparser.NoSectionError */
    | NoSectionError(section: string)
}
