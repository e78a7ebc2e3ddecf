/** The records exchanged with the remote API (auth, profile, movie and envelope models).
    Optional TypeScript fields (`x?: T`) are `Option`s; numbers are integers. */
module Models {
  import opened Wrappers

  // --- auth.models.ts ---

  datatype TokenResponse = TokenResponse(
    authenticated: bool,
    expiration: string,
    accessToken: string,
    refreshToken: string)

  datatype LoginRequest = LoginRequest(email: string, password: string)

  datatype RegisterRequest = RegisterRequest(userName: string, email: string, password: string)

  /** The signed-in viewer's claims. */
  datatype User = User(id: Option<string>, email: Option<string>, name: Option<string>)

  // --- api-response.model.ts ---

  /** The success envelope `{ data, statusCode, message? }`. */
  datatype ApiResponse<T> = ApiResponse(data: T, statusCode: int, message: Option<string>)

  /** The JSON body of an error response, as far as the client inspects it: `errors` is
      `Some` exactly when the body holds an `errors` field that is an array, and `message`
      is the body's `message` field when it is a string. */
  datatype ErrorBody = ErrorBody(errors: Option<seq<string>>, message: Option<string>)

  // --- profile.models.ts ---

  datatype CreateProfileRequest = CreateProfileRequest(id: string, userName: string, imageUrl: Option<string>)

  datatype ProfileSummary = ProfileSummary(
    id: string,
    userName: string,
    imageUrl: string,
    createdDate: string,
    updatedDate: string)

  /** The body answered to a profile creation; its `id` field may be missing. */
  datatype CreatedBody = CreatedBody(id: Option<string>)

  // --- movie.models.ts ---

  datatype GenreSummary = GenreSummary(id: string, name: string)

  datatype MovieSummary = MovieSummary(
    id: string,
    name: string,
    synopsis: string,
    imageUrl: string,
    releaseDate: string,
    views: int)

  datatype PagedList<T> = PagedList(
    items: seq<T>,
    page: int,
    pageSize: int,
    totalCount: int,
    hasNextPage: bool,
    hasPreviusPage: bool)

  datatype MovieDetails = MovieDetails(
    id: string,
    name: string,
    synopsis: string,
    imageUrl: string,
    pathM3U8File: string,
    releaseDate: string,
    views: int,
    genries: seq<GenreSummary>,
    createdDate: string,
    updatedDate: string)
}
