/**
 * Outcomes of the form hooks in studio/design/forms.py.
 *
 * A Django `clean_*` hook either returns the cleaned value or raises
 * `forms.ValidationError(message)`. Here a hook returns `Ok(value)` or
 * `Err(error)`, and each message the source can raise is one `Error`
 * constructor whose `Message()` is the text the source writes.
 */
module FormResult {

  datatype Option<+T> = None | Some(value: T)

  /** Every validation message raised in studio/design/forms.py. */
  datatype Error =
    | UsernameCharset      // latin_validator (lines 15-18, 57-60)
    | FullNameCharset      // kiril_validator (lines 19-22, 61-64)
    | UsernameExists       // UserRegisterForm.clean_username
    | EmailExists          // UserRegisterForm.clean_email
    | ConsentRequired      // UserRegisterForm.clean_agree_to_terms
    | UsernameTaken        // UserEditForm.clean_username
    | EmailTaken           // UserEditForm.clean_email
    | ImageTooLarge        // ApplicationCreateForm.clean_app_image, size check
    | WrongImageFormat     // both clean_app_image hooks, format check
    | CannotOpenImage      // both clean_app_image hooks, `except Exception`
  {
    /** The user-visible text of the error. */
    function Message(): string {
      match this
      case UsernameCharset => "Имя пользователя может содержать только латинские буквы и дефис."
      case FullNameCharset => "ФИО может содержать только кириллицу, дефис и пробелы"
      case UsernameExists => "Пользователь с таким ником уже существует"
      case EmailExists => "Пользователь с такой почтой уже существует"
      case ConsentRequired => "Требуется согласие на обработку персональных данных"
      case UsernameTaken => "Данный ник занят"
      case EmailTaken => "Данная почта занята"
      case ImageTooLarge => "Файл не должен весить более 2 мб"
      case WrongImageFormat => "Неверный формат файла. Допустимые форматы: JPEG, JPG, PNG, BMP."
      case CannotOpenImage => "Не удалось открыть файл как изображение"
    }
  }

  /** A hook's outcome: the cleaned value, or the validation error it raised. */
  datatype Result<+T> = Ok(value: T) | Err(error: Error)
}
