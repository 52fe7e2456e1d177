/** The server-side enumerations of `server/src/core/constants.py`. */
module Constants {

  /** `ErrorCodes`: the codes carried by the server's exceptions. */
  datatype ErrorCode =
    | MODEL_LOAD_FAILED | MODEL_NOT_FOUND | MODEL_RESPONSE_FAILED
    | TOKEN_PROCESS_FAILED | TOKEN_LIMIT_EXCEEDED
    | MEMORY_STORE_FAILED | MEMORY_RETRIEVE_FAILED | MEMORY_NOT_FOUND
    | DB_INIT_FAILED | DB_READ_FAILED | DB_WRITE_FAILED
    | CONFIG_INVALID | CONFIG_MISSING
    | API_ERROR | API_REQUEST_FAILED | API_RESPONSE_INVALID

  /** `ModelStatus`: the lifecycle states of the language-model engine. */
  datatype ModelStatus = INITIALIZING | READY | ERROR | PROCESSING | STOPPED

  /** `MemoryTypes`: the kinds of rows kept in the memory table. */
  datatype MemoryType = CONVERSATION | CONTEXT | FACT | PROMPT | PREFERENCE
}
