/** The pop-up notices the pages raise with `toast.success` and `toast.error`. */
module Toasts {
  datatype Toast = SuccessToast(text: string) | ErrorToast(text: string)
}
