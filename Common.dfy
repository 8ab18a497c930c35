/** Values shared by every page of the campaign front-end: an optional value,
    the toast notifications a handler can raise, and the routes it can navigate to. */
module Common {

  datatype Option<+T> = None | Some(value: T)

  /** The toast a handler shows, one constructor per distinct title. */
  datatype Toast =
    | MissingInformation
    | PasswordTooShort
    | CodeAlreadyExists
    | RegistrationSuccessful
    | RegistrationFailed
    | InvalidInfluencerCode
    | ProductCodeAlreadyUsed
    | RedeemSucceeded
    | InvalidCredentials
    | WelcomeBack
    | MissingCredentials
    | LoggedOut
    | LoadFailed
    | InfluencerAdded
    | InvalidFileType
    | UploadSuccessful

  /** The title text each toast carries. */
  function Title(t: Toast): string
  {
    match t
    case MissingInformation => "Missing Information"
    case PasswordTooShort => "Password Too Short"
    case CodeAlreadyExists => "Code Already Exists"
    case RegistrationSuccessful => "Registration Successful!"
    case RegistrationFailed => "Registration Failed"
    case InvalidInfluencerCode => "Invalid Influencer Code"
    case ProductCodeAlreadyUsed => "Product Code Already Used"
    case RedeemSucceeded => "Success! \U{1F389}"
    case InvalidCredentials => "Invalid Credentials"
    case WelcomeBack => "Welcome back!"
    case MissingCredentials => "Missing Credentials"
    case LoggedOut => "Logged out"
    case LoadFailed => "Error"
    case InfluencerAdded => "Influencer Added!"
    case InvalidFileType => "Invalid File Type"
    case UploadSuccessful => "Upload Successful!"
  }

  /** The client-side routes the pages navigate to. */
  datatype Route = Home | LoginRoute | AuthRoute | AdminRoute | InfluencerDashboardRoute

  function Path(r: Route): string
  {
    match r
    case Home => "/"
    case LoginRoute => "/login"
    case AuthRoute => "/auth"
    case AdminRoute => "/admin"
    case InfluencerDashboardRoute => "/influencer-dashboard"
  }
}
