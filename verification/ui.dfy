/** The display vocabulary the pages choose from: badge variants and status icons. */
module Ui {
  datatype BadgeVariant = Default | Secondary | Outline | Destructive

  datatype StatusIcon = CheckIcon | AlertIcon | ClockIcon
}
