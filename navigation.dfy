/** Route paths and what a route guard decides to render. */
module Navigation {

  const LoginPath := "/login"
  const DashboardPath := "/dashboard"
  const AdminSignupPath := "/admin/signup"

  /** The outcome of a route guard: render the protected children, navigate
      (`<Navigate to=path replace=replace/>`), or alert and then navigate. */
  datatype Decision =
    | RenderChildren
    | Redirect(path: string, replace: bool)
    | DenyThenRedirect(alert: string, path: string, replace: bool)
}
