/** The dismissible highlight strip above the page. Its close button does
    nothing but call the `onClose` it is given (in the app: latch the banner
    shut, `App.Component.CloseBanner`). */
module NotificationBanner {
  import opened Records

  datatype BannerView = Nothing | Banner(title: string, message: string)

  function Render(notification: Option<Notification>, show: bool): (v: BannerView)
    ensures v.Banner? <==> notification.Some? && show
    ensures v.Banner? ==> v.title == notification.value.title && v.message == notification.value.message
  {
    if notification.None? || !show then Nothing
    else Banner(notification.value.title, notification.value.message)
  }
}
