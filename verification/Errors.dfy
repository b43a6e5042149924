/** The error codes of include/error.h that the model uses. */
module Errors {

  const ERROR_NULL: int := -126
  const ERROR_IO: int := -123
  const ERROR_SEND: int := -121
  const ERROR_FILESIZE: int := -119
  const ERROR_FOLDER_NAME_SIZE: int := -117
  const ERROR_INVALID_PATH: int := -116
  const ERROR_ACCESS_DENIED: int := -115
  const ERROR_MAX_PATH_SIZE: int := -114
  const ERROR_FILE_NOT_FOUND: int := -113
  const ERROR_DIRECTORY: int := -112
  const ERROR_ARGUMENT_SIZE: int := -111
  const ERROR_USERNAME_SIZE: int := -110
  const ERROR_PASSWORD_SIZE: int := -109
  const ERROR_PATH_NOT_SUPPORTED: int := -108
  const ERROR_INVALID_CHARS: int := -107
}
