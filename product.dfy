/**
 * The product record edited by the user and consumed by the generator,
 * with the closed enumerations it uses.
 */
module Product {

  /** The three hero arrangements the editor offers. */
  datatype Layout = Centered | Split | Zigzag

  /** The two kinds of export: the landing page or the component stub. */
  datatype ExportFormat = Html | React

  datatype Testimonial = Testimonial(author: string, content: string)

  datatype ProductData = ProductData(
    name: string,
    description: string,
    price: string,
    images: seq<string>,
    category: string,
    features: seq<string>,
    callToAction: string,
    testimonials: seq<Testimonial>,
    primaryColor: string,
    secondaryColor: string,
    fontFamily: string,
    layout: Layout)
}
